/** The four public operations of `ZeebeAPI`
    (app/lib/zeebe-api/zeebe-api.js): each obtains a client through the
    cache and makes one call on it. The calls into the engine SDK are
    parameters of the model. A failure of the call is caught and reported
    as a reason or as a serialised error; a failure to construct the client
    happens before the `try` and rejects the operation. */
module ZeebeApi {
  import opened Wrappers
  import opened Strings
  import opened JsObjects
  import opened Endpoints
  import opened ErrorReasons
  import opened DeploymentName
  import opened ClientOptions
  import opened ClientCache
  import opened Redaction

  /** What `topology()` reports. */
  datatype Topology = Topology(gatewayVersion: string)

  const UndefinedReceiver := "Cannot read properties of undefined"

  /** The TypeError thrown when a method is called on the missing client of
      an unrecognised endpoint, with V8's message text. */
  function MissingClientError(methodName: string): (r: ErrorObject)
    ensures r.Keys == {"message"}
  {
    map["message" := JsString(UndefinedReceiver + " (reading '" + methodName + "')")]
  }

  /** `client.<method>(...)` inside the operation's `try`: a missing client
      throws instead of calling. */
  function Call<R>(client: Option<Client>, methodName: string, call: Client -> Result<R, ErrorObject>)
    : (r: Result<R, ErrorObject>)
    ensures client.Some? ==> r == call(client.value)
    ensures client.None? ==> r == Failure(MissingClientError(methodName))
  {
    match client
    case Some(c) => call(c)
    case None => Failure(MissingClientError(methodName))
  }

  /** The cache after the operation, and how the operation settles: with
      its value, or rejected with the error of a failed construction. */
  datatype Answer<T> = Answer(state: CacheState, result: Result<T, ErrorObject>)

  datatype ConnectionCheck = Connected | NotConnected(reason: ErrorReason)

  datatype GatewayVersion = VersionKnown(gatewayVersion: string) | VersionUnknown(reason: ErrorReason)

  /** What `deploy` and `run` resolve with: the SDK's response, or the
      serialised error. */
  datatype Response<R> = Succeeded(response: R) | Failed(error: ErrorObject)

  /** `checkConnection`: connected exactly when the topology call on the
      obtained client succeeds; otherwise the classified reason of the
      call's error. */
  function CheckConnection(s: CacheState, e: Endpoint, src: TlsSources, build: Construction,
                           topology: Client -> Result<Topology, ErrorObject>): (r: Answer<ConnectionCheck>)
    ensures var a := GetClient(s, e, src, build);
      && r.state == a.state
      && (r.result.Failure? <==> a.client.Failure?)
      && (r.result.Failure? ==> r.result.error == a.client.error)
      && (r.result == Success(Connected) <==>
            a.client.Success? && a.client.value.Some? && topology(a.client.value.value).Success?)
      && (a.client.Success? && Call(a.client.value, "topology", topology).Failure? ==>
            r.result == Success(NotConnected(GetErrorReason(Call(a.client.value, "topology", topology).error, e))))
  {
    var a := GetClient(s, e, src, build);
    match a.client
    case Failure(err) => Answer(a.state, Failure(err))
    case Success(client) =>
      match Call(client, "topology", topology)
      case Success(_) => Answer(a.state, Success(Connected))
      case Failure(err) => Answer(a.state, Success(NotConnected(GetErrorReason(err, e))))
  }

  /** `getGatewayVersion`: the version the topology call reports, or the
      classified reason it failed. */
  function GetGatewayVersion(s: CacheState, e: Endpoint, src: TlsSources, build: Construction,
                             topology: Client -> Result<Topology, ErrorObject>): (r: Answer<GatewayVersion>)
    ensures var a := GetClient(s, e, src, build);
      && r.state == a.state
      && (r.result.Failure? <==> a.client.Failure?)
      && (r.result.Failure? ==> r.result.error == a.client.error)
      && (r.result.Success? && r.result.value.VersionKnown? <==>
            a.client.Success? && a.client.value.Some? && topology(a.client.value.value).Success?)
      && (r.result.Success? && r.result.value.VersionKnown? ==>
            r.result.value.gatewayVersion == topology(a.client.value.value).value.gatewayVersion)
      && (a.client.Success? && Call(a.client.value, "topology", topology).Failure? ==>
            r.result == Success(VersionUnknown(GetErrorReason(Call(a.client.value, "topology", topology).error, e))))
  {
    var a := GetClient(s, e, src, build);
    match a.client
    case Failure(err) => Answer(a.state, Failure(err))
    case Success(client) =>
      match Call(client, "topology", topology)
      case Success(t) => Answer(a.state, Success(VersionKnown(t.gatewayVersion)))
      case Failure(err) => Answer(a.state, Success(VersionUnknown(GetErrorReason(err, e))))
  }

  /** The version query and the connection check agree: they leave the
      same cache, reject alike, the version is known exactly when the
      check connects, and a failure has the same reason in both. */
  lemma GatewayVersionAgreesWithCheck(s: CacheState, e: Endpoint, src: TlsSources, build: Construction,
                                      topology: Client -> Result<Topology, ErrorObject>)
    ensures var v := GetGatewayVersion(s, e, src, build, topology);
      var c := CheckConnection(s, e, src, build, topology);
      && v.state == c.state
      && (v.result.Failure? <==> c.result.Failure?)
      && (v.result.Success? ==> (v.result.value.VersionKnown? <==> c.result.value.Connected?))
      && (v.result.Success? && v.result.value.VersionUnknown? ==> c.result.value == NotConnected(v.result.value.reason))
  {
  }

  /** The parameters of `deploy`. */
  datatype DeployParameters = DeployParameters(endpoint: Endpoint, filePath: Option<string>, name: Option<string>,
                                               diagramType: Option<string>)

  /** What `deployProcess` is called with. */
  datatype DeployRequest = DeployRequest(definition: string, name: Option<string>)

  /** `deploy`: the file's contents are deployed under the prepared name; a
      failure of the call comes back as its serialised error. */
  function Deploy<R>(s: CacheState, p: DeployParameters, contents: string, src: TlsSources, build: Construction,
                     deployProcess: (Client, DeployRequest) -> Result<R, ErrorObject>): (r: Answer<Response<R>>)
    ensures var a := GetClient(s, p.endpoint, src, build);
      var request := DeployRequest(contents, PrepareDeploymentName(p.name, p.filePath, p.diagramType));
      && r.state == a.state
      && (r.result.Failure? <==> a.client.Failure?)
      && (r.result.Failure? ==> r.result.error == a.client.error)
      && (r.result.Success? && r.result.value.Succeeded? <==>
            a.client.Success? && a.client.value.Some? && deployProcess(a.client.value.value, request).Success?)
      && (r.result.Success? && r.result.value.Succeeded? ==>
            r.result.value.response == deployProcess(a.client.value.value, request).value)
      && (r.result.Success? && r.result.value.Failed? ==>
            r.result.value.error ==
              AsSerializedError(Call(a.client.value, "deployProcess", c => deployProcess(c, request)).error))
    ensures r.result.Success? && r.result.value.Failed? ==> r.result.value.error.Keys <= SerializedErrorKeys
  {
    var a := GetClient(s, p.endpoint, src, build);
    var request := DeployRequest(contents, PrepareDeploymentName(p.name, p.filePath, p.diagramType));
    match a.client
    case Failure(err) => Answer(a.state, Failure(err))
    case Success(client) =>
      match Call(client, "deployProcess", c => deployProcess(c, request))
      case Success(response) => Answer(a.state, Success(Succeeded(response)))
      case Failure(err) => Answer(a.state, Success(Failed(AsSerializedError(err))))
  }

  /** `run`: a process instance is created with the given variables; a
      failure of the call comes back as its serialised error. */
  function Run<V, R>(s: CacheState, e: Endpoint, processId: string, variables: V, src: TlsSources,
                     build: Construction,
                     createProcessInstance: (Client, string, V) -> Result<R, ErrorObject>): (r: Answer<Response<R>>)
    ensures var a := GetClient(s, e, src, build);
      && r.state == a.state
      && (r.result.Failure? <==> a.client.Failure?)
      && (r.result.Failure? ==> r.result.error == a.client.error)
      && (r.result.Success? && r.result.value.Succeeded? <==>
            a.client.Success? && a.client.value.Some?
            && createProcessInstance(a.client.value.value, processId, variables).Success?)
      && (r.result.Success? && r.result.value.Succeeded? ==>
            r.result.value.response == createProcessInstance(a.client.value.value, processId, variables).value)
      && (r.result.Success? && r.result.value.Failed? ==>
            r.result.value.error ==
              AsSerializedError(Call(a.client.value, "createProcessInstance",
                                     c => createProcessInstance(c, processId, variables)).error))
    ensures r.result.Success? && r.result.value.Failed? ==> r.result.value.error.Keys <= SerializedErrorKeys
  {
    var a := GetClient(s, e, src, build);
    match a.client
    case Failure(err) => Answer(a.state, Failure(err))
    case Success(client) =>
      match Call(client, "createProcessInstance", c => createProcessInstance(c, processId, variables))
      case Success(response) => Answer(a.state, Success(Succeeded(response)))
      case Failure(err) => Answer(a.state, Success(Failed(AsSerializedError(err))))
  }

  /** A capital the markers start with occurs in the message of a missing
      client only if it occurs in the method name. */
  lemma MissingClientMessageLacks(methodName: string, c: char)
    requires c == 'E' || c == 'N' || c == 'U' || c == 'F'
    requires c !in methodName
    ensures c !in UndefinedReceiver + " (reading '" + methodName + "')"
  {
    if c == 'E' {
      assert 'E' !in UndefinedReceiver && 'E' !in " (reading '" && 'E' !in "')";
    } else if c == 'N' {
      assert 'N' !in UndefinedReceiver && 'N' !in " (reading '" && 'N' !in "')";
    } else if c == 'U' {
      assert 'U' !in UndefinedReceiver && 'U' !in " (reading '" && 'U' !in "')";
    } else {
      assert 'F' !in UndefinedReceiver && 'F' !in " (reading '" && 'F' !in "')";
    }
  }

  /** The TypeError of a missing client has no code and mentions none of
      the markers, so it is classified as unknown. */
  lemma MissingClientErrorIsUnknown(methodName: string, e: Endpoint)
    requires 'E' !in methodName && 'N' !in methodName && 'U' !in methodName && 'F' !in methodName
    ensures GetErrorReason(MissingClientError(methodName), e) == Unknown
  {
    var m := UndefinedReceiver + " (reading '" + methodName + "')";
    assert Message(MissingClientError(methodName)) == Some(m);
    MissingClientMessageLacks(methodName, 'E');
    MissingClientMessageLacks(methodName, 'N');
    MissingClientMessageLacks(methodName, 'U');
    MissingClientMessageLacks(methodName, 'F');
    UnmarkedMessageIsUnknown(MissingClientError(methodName), e);
  }

  /** An endpoint of unrecognised type gets no client; the topology call on
      it throws, and the check reports the reason as unknown. */
  lemma UnrecognisedEndpointIsUnknown(s: CacheState, e: Endpoint, src: TlsSources, build: Construction,
                                      topology: Client -> Result<Topology, ErrorObject>)
    requires Inv(s)
    requires e.Unrecognised?
    ensures CheckConnection(s, e, src, build, topology).result == Success(NotConnected(Unknown))
  {
    MissingClientErrorIsUnknown("topology", e);
  }
}

/** What the engine client lets out of its boundary: `withoutSecrets` for
    log lines and `asSerializedError` for failed deployments and runs
    (app/lib/zeebe-api/zeebe-api.js). Both keep a fixed set of properties and
    drop everything else. */
module Redaction {
  import opened JsObjects
  import opened Endpoints

  /** The endpoint properties that may be logged. */
  const SafeEndpointKeys: set<string> := {"type", "url", "clientId", "oauthURL"}

  /** The error properties handed back to the caller. */
  const SerializedErrorKeys: set<string> := {"message", "code", "details"}

  /** The parameters of a public operation: an endpoint and the rest
      (file path, name, process id, variables, ...). */
  datatype Parameters<P> = Parameters(endpoint: Endpoint, rest: P)

  /** The parameters as logged, the endpoint replaced by its safe view. */
  datatype LoggedParameters<P> = LoggedParameters(endpoint: map<string, string>, rest: P)

  /** `withoutSecrets`: the endpoint keeps exactly those safe properties it
      has, with their values; the other parameters are passed on as they
      are. */
  function WithoutSecrets<P>(p: Parameters<P>): (r: LoggedParameters<P>)
    ensures r.rest == p.rest
    ensures r.endpoint.Keys == AsObject(p.endpoint).Keys * SafeEndpointKeys
    ensures forall k :: k in r.endpoint ==> r.endpoint[k] == AsObject(p.endpoint)[k]
    ensures "clientSecret" !in r.endpoint && "audience" !in r.endpoint
  {
    LoggedParameters(Pick(AsObject(p.endpoint), SafeEndpointKeys), p.rest)
  }

  /** What a log line shows of each kind of endpoint: a cloud endpoint shows
      only its type and client id; no kind shows a secret. */
  lemma LoggedEndpointShape<P>(p: Parameters<P>)
    ensures var shown := WithoutSecrets(p).endpoint.Keys;
      match p.endpoint
      case SelfHosted(_) => shown == {"type", "url"}
      case OAuth(_, _, _, _, _) => shown == {"type", "url", "clientId", "oauthURL"}
      case CamundaCloud(_, _, _, _) => shown == {"type", "clientId"}
      case Unrecognised(_, address) => shown == if address.Some? then {"type", "url"} else {"type"}
  {
  }

  /** `asSerializedError`: the error keeps exactly those of `message`, `code`
      and `details` it has, with their values. */
  function AsSerializedError(err: ErrorObject): (r: ErrorObject)
    ensures r.Keys == err.Keys * SerializedErrorKeys
    ensures forall k :: k in r ==> r[k] == err[k]
    ensures "clientSecret" !in r
  {
    Pick(err, SerializedErrorKeys)
  }

  /** Serialising a serialised error changes nothing, so the payload the
      caller gets back is already in its final shape. */
  lemma SerializationIsIdempotent(err: ErrorObject)
    ensures AsSerializedError(AsSerializedError(err)) == AsSerializedError(err)
  {
    PickIdempotent(err, SerializedErrorKeys);
  }
}

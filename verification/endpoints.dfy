/** The connection targets the engine client accepts (`Endpoint` in
    app/lib/zeebe-api/zeebe-api.js): a self-hosted engine without
    authentication, a self-hosted engine behind OAuth, or a managed cluster in
    Camunda Cloud. */
module Endpoints {
  import opened Wrappers

  /** The `type` strings of `endpointTypes`. */
  const SelfHostedName := "selfHosted"
  const OAuthName := "oauth"
  const CamundaCloudName := "camundaCloud"

  /** A `type` string that is none of the three recognised ones. */
  type UnknownTypeName = s: string | s != SelfHostedName && s != OAuthName && s != CamundaCloudName
    witness ""

  datatype Endpoint =
    | SelfHosted(url: string)
    | OAuth(url: string, audience: string, clientId: string, clientSecret: string, oauthUrl: string)
    | CamundaCloud(clusterId: string, clientId: string, clientSecret: string, clusterRegion: Option<string>)
      /** An endpoint whose `type` the client does not recognise; only its
          `type` and an optional `url` are ever read. */
    | Unrecognised(typeName: UnknownTypeName, address: Option<string>)

  /** The `type` property of the endpoint object. */
  function TypeName(e: Endpoint): (r: string)
    ensures r == CamundaCloudName <==> e.CamundaCloud?
    ensures r == OAuthName <==> e.OAuth?
    ensures r == SelfHostedName <==> e.SelfHosted?
  {
    match e
    case SelfHosted(_) => SelfHostedName
    case OAuth(_, _, _, _, _) => OAuthName
    case CamundaCloud(_, _, _, _) => CamundaCloudName
    case Unrecognised(name, _) => name
  }

  /** The `url` property: cloud endpoints carry none, so the client reads
      `undefined`. */
  function Url(e: Endpoint): (r: Option<string>)
    ensures r.None? <==> e.CamundaCloud? || (e.Unrecognised? && e.address.None?)
    ensures e.SelfHosted? || e.OAuth? ==> r == Some(e.url)
  {
    match e
    case SelfHosted(url) => Some(url)
    case OAuth(url, _, _, _, _) => Some(url)
    case CamundaCloud(_, _, _, _) => None
    case Unrecognised(_, address) => address
  }

  /** The endpoint as the JavaScript object the client receives: every
      property it has, by name. */
  function AsObject(e: Endpoint): (r: map<string, string>)
    ensures "type" in r && r["type"] == TypeName(e)
    ensures "url" in r <==> Url(e).Some?
    ensures "url" in r ==> r["url"] == Url(e).value
    ensures "clientSecret" in r <==> e.OAuth? || e.CamundaCloud?
  {
    match e
    case SelfHosted(url) =>
      map["type" := SelfHostedName, "url" := url]
    case OAuth(url, audience, clientId, clientSecret, oauthUrl) =>
      map["type" := OAuthName, "url" := url, "audience" := audience, "clientId" := clientId,
          "clientSecret" := clientSecret, "oauthURL" := oauthUrl]
    case CamundaCloud(clusterId, clientId, clientSecret, clusterRegion) =>
      var base := map["type" := CamundaCloudName, "clusterId" := clusterId, "clientId" := clientId,
                      "clientSecret" := clientSecret];
      if clusterRegion.Some? then base["clusterRegion" := clusterRegion.value] else base
    case Unrecognised(name, address) =>
      if address.Some? then map["type" := name, "url" := address.value] else map["type" := name]
  }
}

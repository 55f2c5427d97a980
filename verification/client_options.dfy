/** The options the engine client is constructed with
    (`_createZeebeClient` and `_withTLSConfig` of
    app/lib/zeebe-api/zeebe-api.js): no automatic retries, an authentication
    block per endpoint type, and TLS settings with the trusted root
    certificates. */
module ClientOptions {
  import opened Wrappers
  import opened Strings
  import opened JsObjects
  import opened Endpoints

  /** The `oAuth` block of a self-hosted OAuth endpoint. */
  datatype OAuthConfig = OAuthConfig(url: string, audience: string, clientId: string, clientSecret: string,
                                     cacheOnDisk: bool)

  /** The `camundaCloud` block of a cloud endpoint. */
  datatype CloudConfig = CloudConfig(clientId: string, clientSecret: string, clusterId: string, cacheOnDisk: bool,
                                     clusterRegion: Option<string>)

  /** The options object; `customSSL` holds the root certificates in the
      order they are joined into one buffer. An absent `useTLS` reads as
      false wherever the source uses it. */
  datatype Options = Options(retry: bool, oAuth: Option<OAuthConfig>, camundaCloud: Option<CloudConfig>,
                             useTLS: bool, customSSL: Option<seq<string>>)

  /** What the construction reads from its surroundings: the
      `zeebe-ssl-certificate` flag, the outcome of reading the certificate
      file it names (absent when reading fails), and the operating system's
      certificates. */
  datatype TlsSources = TlsSources(certificatePath: Option<string>,
                                   readRootCertificate: string -> Option<string>,
                                   systemCertificates: seq<string>)

  /** The custom certificate that is trusted: only when the flag is set and
      the file could be read to non-empty contents. */
  function CustomCertificate(src: TlsSources): (r: Option<string>)
    ensures r.Some? ==> r.value != ""
    ensures r.Some? <==> Truthy(src.certificatePath) && Truthy(src.readRootCertificate(src.certificatePath.value))
  {
    if Truthy(src.certificatePath) then
      var cert := src.readRootCertificate(src.certificatePath.value);
      if Truthy(cert) then cert else None
    else None
  }

  /** The trusted root certificates: the custom one, if any, ahead of all
      system certificates, which keep their order. */
  function RootCertificates(src: TlsSources): (r: seq<string>)
    ensures |r| == |src.systemCertificates| + (if CustomCertificate(src).Some? then 1 else 0)
    ensures r[|r| - |src.systemCertificates|..] == src.systemCertificates
    ensures CustomCertificate(src).Some? ==> r[0] == CustomCertificate(src).value
  {
    var custom := CustomCertificate(src);
    (if custom.Some? then [custom.value] else []) + src.systemCertificates
  }

  /** With a readable custom certificate and system certificates, the custom
      one comes first and is followed by exactly the system ones. */
  lemma CustomCertificateFirst(src: TlsSources, cert: string)
    requires Truthy(src.certificatePath)
    requires src.readRootCertificate(src.certificatePath.value) == Some(cert)
    requires cert != ""
    ensures RootCertificates(src) == [cert] + src.systemCertificates
  {
  }

  /** `/^https:\/\//.test(url)`; an absent url is tested as "undefined". */
  predicate IsHttps(url: Option<string>) {
    url.Some? && StartsWith(url.value, "https://")
  }

  /** `_withTLSConfig`: TLS is on when the options asked for it or the url is
      an https one; `customSSL` is added exactly when there is at least one
      root certificate; nothing else changes. */
  function WithTlsConfig(url: Option<string>, options: Options, src: TlsSources): (r: Options)
    ensures r.useTLS <==> options.useTLS || IsHttps(url)
    ensures r.customSSL.Some? <==> |RootCertificates(src)| > 0
    ensures r.customSSL.Some? ==> r.customSSL.value == RootCertificates(src)
    ensures r.retry == options.retry && r.oAuth == options.oAuth && r.camundaCloud == options.camundaCloud
  {
    var certs := RootCertificates(src);
    var tls := options.(useTLS := options.useTLS || IsHttps(url));
    if |certs| == 0 then tls.(customSSL := None) else tls.(customSSL := Some(certs))
  }

  /** The options before TLS is resolved; none for an unrecognised type.
      Retries are off; OAuth credentials go into `oAuth`, whose `url` is the
      token endpoint `oauthURL`; cloud credentials go into `camundaCloud`
      with the region only when it is non-empty, and force TLS. */
  function AuthOptions(e: Endpoint): (r: Option<Options>)
    ensures r.None? <==> e.Unrecognised?
    ensures r.Some? ==> !r.value.retry && r.value.customSSL.None? && (r.value.useTLS <==> e.CamundaCloud?)
    ensures r.Some? ==> (r.value.oAuth.Some? <==> e.OAuth?) && (r.value.camundaCloud.Some? <==> e.CamundaCloud?)
    ensures e.OAuth? ==>
      r.value.oAuth == Some(OAuthConfig(e.oauthUrl, e.audience, e.clientId, e.clientSecret, false))
    ensures e.CamundaCloud? ==>
      var c := r.value.camundaCloud.value;
      && c.clientId == e.clientId && c.clientSecret == e.clientSecret && c.clusterId == e.clusterId
      && !c.cacheOnDisk
      && c.clusterRegion == (if Truthy(e.clusterRegion) then e.clusterRegion else None)
  {
    var defaults := Options(retry := false, oAuth := None, camundaCloud := None, useTLS := false, customSSL := None);
    match e
    case Unrecognised(_, _) => None
    case SelfHosted(_) => Some(defaults)
    case OAuth(_, audience, clientId, clientSecret, oauthUrl) =>
      Some(defaults.(oAuth := Some(OAuthConfig(oauthUrl, audience, clientId, clientSecret, false))))
    case CamundaCloud(clusterId, clientId, clientSecret, clusterRegion) =>
      var region := if Truthy(clusterRegion) then clusterRegion else None;
      Some(defaults.(camundaCloud := Some(CloudConfig(clientId, clientSecret, clusterId, false, region)),
                     useTLS := true))
  }

  /** `_createZeebeClient` up to the construction call: the options the
      client is built with, or none when the endpoint type is not
      recognised. */
  function CreateClientOptions(e: Endpoint, src: TlsSources): (r: Option<Options>)
    ensures r.None? <==> e.Unrecognised?
    ensures r.Some? ==> !r.value.retry
    ensures r.Some? ==> (r.value.oAuth.Some? <==> e.OAuth?) && (r.value.camundaCloud.Some? <==> e.CamundaCloud?)
    ensures r.Some? && e.OAuth? ==> !r.value.oAuth.value.cacheOnDisk
    ensures r.Some? && e.CamundaCloud? ==>
      !r.value.camundaCloud.value.cacheOnDisk
      && (r.value.camundaCloud.value.clusterRegion.Some? <==> Truthy(e.clusterRegion))
    ensures r.Some? ==> (r.value.useTLS <==> e.CamundaCloud? || IsHttps(Url(e)))
    ensures r.Some? ==> (r.value.customSSL.Some? <==> |RootCertificates(src)| > 0)
  {
    match AuthOptions(e)
    case None => None
    case Some(options) => Some(WithTlsConfig(Url(e), options, src))
  }

  /** Reads an endpoint back from the address and options a client was
      built with. */
  function EndpointOf(url: Option<string>, options: Options): Option<Endpoint>
  {
    if options.oAuth.Some? then
      var o := options.oAuth.value;
      if url.Some? then Some(OAuth(url.value, o.audience, o.clientId, o.clientSecret, o.url)) else None
    else if options.camundaCloud.Some? then
      var c := options.camundaCloud.value;
      Some(CamundaCloud(c.clusterId, c.clientId, c.clientSecret, c.clusterRegion))
    else if url.Some? then Some(SelfHosted(url.value))
    else None
  }

  /** The endpoint with an empty cluster region treated as no region, which
      is all the source distinguishes. */
  function WithoutEmptyRegion(e: Endpoint): Endpoint
  {
    if e.CamundaCloud? && !Truthy(e.clusterRegion) then e.(clusterRegion := None) else e
  }

  /** The client options lose nothing of the endpoint but an empty region:
      reading the endpoint back from url and options gives it again. */
  lemma OptionsDetermineEndpoint(e: Endpoint, src: TlsSources)
    requires !e.Unrecognised?
    ensures EndpointOf(Url(e), CreateClientOptions(e, src).value) == Some(WithoutEmptyRegion(e))
  {
  }
}

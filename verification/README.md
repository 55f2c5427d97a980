# Engine client wrapper of a BPMN/DMN desktop modeler, in Dafny

This project models the parts of the modeler's support code that have logic:

- the engine client wrapper `ZeebeAPI`, which connects the modeler to a
  Zeebe workflow engine through the engine's SDK. It has four operations:
  check a connection, deploy a diagram, start a process instance, and read
  the gateway version. Each operation gets its client from a single-slot
  cache keyed by the endpoint. The wrapper builds client options per
  endpoint type, including the TLS root certificates. It classifies failures
  into nine error reasons, and it redacts endpoints and errors before they
  leave the wrapper;
- the deployment-name rule, which gives every deployment a `.bpmn` or
  `.dmn` suffix;
- the file-dialog filter table and its lookup `getFilters`;
- the engine profile table and its lookup `getLatestStable`.

All of it is written as immutable datatypes and pure functions. There is one
module per component:

| module | file | component |
|---|---|---|
| `Endpoints` | endpoints.dfy | the endpoint sum type (self-hosted, OAuth, Camunda Cloud, unrecognised type) and its JavaScript object view |
| `ErrorReasons` | error_reasons.dfy | `getErrorReason`, plus an independent first-match rule table |
| `DeploymentName` | deployment_name.dfy | `_prepareDeploymentName` |
| `Paths` | paths.dfy | POSIX `path.basename` / `path.extname`, as used for deployment names |
| `ClientOptions` | client_options.dfy | `_createZeebeClient` option building and `_withTLSConfig` |
| `Redaction` | redaction.dfy | `withoutSecrets`, `asSerializedError` |
| `ClientCache` | client_cache.dfy | `_getZeebeClient`, `_getCachedZeebeClient`, `_shutdownZeebeClientInstance` |
| `ZeebeApi` | zeebe_api.dfy | `checkConnection`, `deploy`, `run`, `getGatewayVersion` |
| `FilterExtensions` | filter_extensions.dfy | `EXTENSIONS`, `getFilters` |
| `Engines` | engines.dfy | `ENGINES`, `ENGINE_PROFILES`, `ENGINE_LABELS`, `getLatestStable` |
| `Wrappers`, `Strings`, `JsObjects` | wrappers.dfy, strings.dfy, js_objects.dfy | `Option`/`Result`, `startsWith`/`endsWith`/`includes`, plain objects and min-dash `pick` |

JavaScript's `undefined` is `None`, and a thrown error is a `Failure`. Plain
objects are `map<string, V>`. The engine SDK is a set of function parameters,
and so are the certificate file read and the operating system's trust store.
A client is an opaque token numbered in construction order. The cache state
records how many clients were built and which were closed. That history is
what lets the model state "closed exactly once" and "at most one client
open".

Facts about the code that the model keeps:

- Status code 13 is INTERNAL in the gRPC status code table, so the constant
  is called `Internal`. For cloud endpoints the code reports it as
  CLUSTER_UNAVAILABLE (zeebe-api.js:429-430).
- The `oAuth` block's `url` is the endpoint's `oauthURL`, not its `url`
  (zeebe-api.js:283).
- Cloud endpoints have no `url`. The code still reads it, gets
  `undefined`, and tests it against `https://`, which fails
  (zeebe-api.js:268, 314).
- For an unrecognised endpoint type, no client is built (zeebe-api.js:275-277).
  The operation's call on the missing client then throws a TypeError inside
  the `try`. So `checkConnection` reports `UNKNOWN`, and `deploy` and `run`
  return the serialised TypeError.
- `_getZeebeClient` runs before each operation's `try`. If constructing the
  client throws, the operation rejects instead of reporting a reason. This
  happens when reading the system certificates or the `ZBClient`
  constructor fails (zeebe-api.js:306, 329). The model has these outcomes
  as a parameter; see the Findings section below.

## Model

| member | source | states |
|---|---|---|
| Endpoints.TypeName | app/lib/zeebe-api/zeebe-api.js:36-40 | the `type` string is `camundaCloud`, `oauth` or `selfHosted` exactly for the matching endpoint kind, so the string comparisons of the source select variants |
| Endpoints.AsObject | app/lib/zeebe-api/zeebe-api.js:47-73 | the endpoint object always has `type`; it has `url` exactly when the kind has one; it has `clientSecret` exactly for OAuth and cloud endpoints |
| ErrorReasons.ReasonName | app/lib/zeebe-api/zeebe-api.js:24-34 | every reason is reported under one of the nine `errorReasons` strings |
| ErrorReasons.ReasonNamesDistinct | app/lib/zeebe-api/zeebe-api.js:24-34 | two reasons have the same name only if they are the same reason |
| ErrorReasons.GetErrorReason | app/lib/zeebe-api/zeebe-api.js:412-468 | OAUTH_URL is reported only for OAuth endpoints. CLUSTER_UNAVAILABLE, INVALID_CLIENT_ID and INVALID_CREDENTIALS are reported only for cloud endpoints. CONTACT_POINT_UNAVAILABLE and UNAUTHORIZED are never reported for cloud endpoints. UNSUPPORTED_ENGINE is reported exactly for code 12. The full precedence is stated by ErrorReasons.GetErrorReasonFollowsRules |
| ErrorReasons.Message | app/lib/zeebe-api/zeebe-api.js:414-417 | the message takes part in the checks only when it is a string |
| ErrorReasons.Code | app/lib/zeebe-api/zeebe-api.js:414-417 | the error's code takes part in the checks only when it is a number, matching the strict `===` comparisons |
| ErrorReasons.UnavailableAlwaysWins | app/lib/zeebe-api/zeebe-api.js:424-428 | code 14 gives CLUSTER_UNAVAILABLE for cloud endpoints and CONTACT_POINT_UNAVAILABLE for all others, whatever the message is |
| ErrorReasons.InternalOnlyForCloud | app/lib/zeebe-api/zeebe-api.js:429-430 | code 13 gives CLUSTER_UNAVAILABLE for cloud endpoints; for other endpoints the result is the same as for the error without a code |
| ErrorReasons.UnimplementedMeansUnsupportedEngine | app/lib/zeebe-api/zeebe-api.js:431-433 | code 12 gives UNSUPPORTED_ENGINE for every endpoint, whatever the message is |
| ErrorReasons.NoMessageIsUnknown | app/lib/zeebe-api/zeebe-api.js:436-438 | when no code check decides and the message is absent or empty, the reason is UNKNOWN |
| ErrorReasons.MessageChecksInOrder | app/lib/zeebe-api/zeebe-api.js:441-467 | the message checks take effect in order (not found, unauthorized, forbidden, unsupported protocol for OAuth only, else UNKNOWN), each with its per-endpoint outcome; an earlier marker beats every later one |
| ErrorReasons.UnmarkedMessageIsUnknown | app/lib/zeebe-api/zeebe-api.js:441-467 | a message without a code that contains none of the markers' first capitals is UNKNOWN for every endpoint |
| ErrorReasons.ClassifyIsFirstMatch | app/lib/zeebe-api/zeebe-api.js:412-468 | the rule-table reading returns the reason of the first applicable rule, and UNKNOWN when no rule applies |
| ErrorReasons.GetErrorReasonFollowsRules | app/lib/zeebe-api/zeebe-api.js:412-468 | `getErrorReason` equals the first applicable rule of the precedence table for every error and endpoint |
| Paths.Stem | app/lib/zeebe-api/zeebe-api.js:391 | `basename(p, extname(p))` followed by the extension gives back the base name, and it holds no separator |
| Paths.StemOfJoin | app/lib/zeebe-api/zeebe-api.js:391 | for "dir/stem.ext", the stem is `stem` and the extension is ".ext" |
| DeploymentName.Extension | app/lib/zeebe-api/zeebe-api.js:385-387 | the suffix starts with a dot and is ".bpmn" when no file type is given |
| DeploymentName.PrepareDeploymentName | app/lib/zeebe-api/zeebe-api.js:385-404 | an empty name becomes the file's stem plus the suffix; a name without the suffix gets it appended; a name with it is unchanged; with no path to derive a name from, the name comes back as given; otherwise the result ends with the suffix |
| DeploymentName.PrepareIsIdempotent | app/lib/zeebe-api/zeebe-api.js:385-404 | preparing an already prepared name returns it unchanged |
| DeploymentName.PreparePreservesGivenName | app/lib/zeebe-api/zeebe-api.js:394-396 | a non-empty name is only ever extended, never altered |
| DeploymentName.NameFromFilePath | app/lib/zeebe-api/zeebe-api.js:390-392 | with an empty name, "foo/bar.bpmn" is deployed as "bar.bpmn" |
| DeploymentName.SuffixAppendedOnce | app/lib/zeebe-api/zeebe-api.js:394-403 | "x" becomes "x.dmn" and "x.dmn" stays "x.dmn" |
| Endpoints.Url | app/lib/zeebe-api/zeebe-api.js:266-269 | the `url` the client is built for is absent exactly for cloud endpoints and for unrecognised ones without a url; self-hosted and OAuth endpoints give their own url |
| ClientOptions.AuthOptions | app/lib/zeebe-api/zeebe-api.js:271-302 | no options for an unrecognised type; otherwise retries off, with no TLS material yet. The `oAuth` block holds `oauthURL` as its `url`, plus the audience, client id and secret, with on-disk caching off. The `camundaCloud` block holds the client id, secret and cluster id, and the region only when it is non-empty. TLS is forced for cloud only |
| ClientOptions.CustomCertificate | app/lib/zeebe-api/zeebe-api.js:317-326 | a custom certificate is used exactly when the flag is set and the file reads to non-empty contents |
| ClientOptions.RootCertificates | app/lib/zeebe-api/zeebe-api.js:310-330 | the root certificates are the custom one, if any, first, followed by all system certificates in order |
| ClientOptions.CustomCertificateFirst | app/lib/zeebe-api/zeebe-api.js:317-330 | with a readable custom certificate, the list is exactly that certificate followed by the system certificates |
| ClientOptions.WithTlsConfig | app/lib/zeebe-api/zeebe-api.js:309-343 | TLS is on exactly when the options asked for it or the url starts with `https://`; `customSSL` is present exactly when there is a root certificate, and then holds them all; no other option changes |
| ClientOptions.CreateClientOptions | app/lib/zeebe-api/zeebe-api.js:265-307 | there are no options exactly for an unrecognised type; retries are always off; an `oAuth` block appears only for OAuth and a `camundaCloud` block only for cloud, each with on-disk caching off; the region is set only when it is non-empty; cloud forces TLS |
| ClientOptions.OptionsDetermineEndpoint | app/lib/zeebe-api/zeebe-api.js:279-302 | the endpoint can be read back from the client's address and options, except that an empty region is lost: the options carry all of the endpoint's connection data |
| Redaction.WithoutSecrets | app/lib/zeebe-api/zeebe-api.js:474-478 | the logged endpoint has exactly the safe properties (`type`, `url`, `clientId`, `oauthURL`) the endpoint has, with their values, and never `clientSecret`; the other parameters are unchanged |
| Redaction.LoggedEndpointShape | app/lib/zeebe-api/zeebe-api.js:474-478 | the logged properties for each endpoint kind; a cloud endpoint shows only its type and client id |
| Redaction.AsSerializedError | app/lib/zeebe-api/zeebe-api.js:480-482 | the serialised error has exactly those of `message`, `code` and `details` that the error has, with their values, and never `clientSecret` |
| Redaction.SerializationIsIdempotent | app/lib/zeebe-api/zeebe-api.js:480-482 | serialising a serialised error changes nothing |
| ClientCache.GetClient | app/lib/zeebe-api/zeebe-api.js:242-259 | on a hit (an equal endpoint with a client) the cached client is returned and nothing changes. Otherwise the old client, if any, is closed once. A recognised type then gets a client with the next number and the endpoint's options, an unrecognised type gets none, and the endpoint is recorded. A failed construction rejects with its error and leaves the slot empty (the corrected order, see Findings) |
| ClientCache.Shutdown | app/lib/zeebe-api/zeebe-api.js:261-263 | the cached client, if any, is added to the closed clients once; the slot itself is left as it is |
| ClientCache.GetClientAsWritten | app/lib/zeebe-api/zeebe-api.js:251-256 | when construction fails after the old client was closed, the request rejects, and the slot still holds the closed client and the old endpoint; in every other case it behaves as ClientCache.GetClient |
| ClientCache.InitialInv | app/lib/zeebe-api/zeebe-api.js:85-93 | a fresh instance satisfies the lifecycle invariant |
| ClientCache.MissKeepsInv | app/lib/zeebe-api/zeebe-api.js:251-256 | a miss keeps the invariant. The cached client is closed once, and the slot is either emptied or given the next-numbered client, built for a recognised endpoint |
| ClientCache.GetClientKeepsInv | app/lib/zeebe-api/zeebe-api.js:234-263 | every request keeps the invariant, failed constructions included. Only built clients are closed, and none twice. The cached client is the only open one and the newest, and it was built for the cached, recognised endpoint |
| ClientCache.ServeKeepsInv | app/lib/zeebe-api/zeebe-api.js:234-263 | over any sequence of requests, with any construction outcomes, the invariant holds: no client is closed twice and at most one is open |
| ClientCache.ServedClientIsOpen | app/lib/zeebe-api/zeebe-api.js:242-259 | a client that a request is served with is never a closed one; it is the only open client |
| ClientCache.RepeatedRequestReuses | app/lib/zeebe-api/zeebe-api.js:244-249 | after a request whose construction did not fail, a second request for the same endpoint builds nothing, closes nothing and returns the first request's client |
| ClientCache.ChangeClosesPrevious | app/lib/zeebe-api/zeebe-api.js:251-256 | a request for a different endpoint closes the cached client exactly once. It then records the new endpoint, or, if construction fails, leaves no client cached |
| ClientCache.StaleClientAfterFailedConstruction | app/lib/zeebe-api/zeebe-api.js:251-256 | with the source's order, take a client cached for A and a failed construction for B. The invariant then breaks, a request for A is served the closed client, and a request for a third endpoint closes it a second time |
| ClientCache.FailedConstructionClosesOnce | app/lib/zeebe-api/zeebe-api.js:251-256 | in the same scenario with the corrected order, the invariant holds and the slot is empty. A request for A gets a fresh client, and the closed client is never closed again |
| ZeebeApi.Call | app/lib/zeebe-api/zeebe-api.js:108-111 | a call on a present client is that client's answer; on a missing client it fails with the TypeError |
| ZeebeApi.CheckConnection | app/lib/zeebe-api/zeebe-api.js:102-121 | it rejects exactly when construction fails, with that error. Otherwise it reports connected exactly when the topology call on the obtained client succeeds. On a failed call it reports getErrorReason of the call's error. The cache changes as for the client request |
| ZeebeApi.GetGatewayVersion | app/lib/zeebe-api/zeebe-api.js:207-232 | it rejects exactly when construction fails. Otherwise the version is known exactly when the topology call succeeds, and is the one reported. On a failed call it reports getErrorReason of the call's error |
| ZeebeApi.GatewayVersionAgreesWithCheck | app/lib/zeebe-api/zeebe-api.js:207-232 | the version query and the connection check leave the same cache and reject alike. The version is known exactly when the check connects, and a failure carries the same reason in both |
| ZeebeApi.MissingClientError | app/lib/zeebe-api/zeebe-api.js:110-111 | the TypeError thrown by calling a method on the missing client carries only a `message` |
| ZeebeApi.Deploy | app/lib/zeebe-api/zeebe-api.js:130-163 | it rejects exactly when construction fails. Otherwise the file contents are sent under the prepared deployment name, and success is the SDK's response. A failed call gives asSerializedError of its error, which carries only `message`, `code` and `details` |
| ZeebeApi.Run | app/lib/zeebe-api/zeebe-api.js:172-198 | it rejects exactly when construction fails. Otherwise the process instance is created with the given id and variables, and success is the SDK's response. A failed call gives asSerializedError of its error |
| ZeebeApi.MissingClientErrorIsUnknown | app/lib/zeebe-api/zeebe-api.js:436-467 | the TypeError raised by a missing client has no code and matches no marker, so it is classified UNKNOWN |
| ZeebeApi.UnrecognisedEndpointIsUnknown | app/lib/zeebe-api/zeebe-api.js:275-277 | for an endpoint of unrecognised type, no client is built and the connection check reports UNKNOWN |
| FilterExtensions.AsList | app/lib/util/filter-extensions.js:71-73 | a single type is the list holding only it; a list is taken as it is |
| FilterExtensions.Lookup | app/lib/util/filter-extensions.js:75-77 | a known key gives its table entry; an unknown key gives an absent entry, not an error |
| FilterExtensions.FilterList | app/lib/util/filter-extensions.js:75-77 | the output has the input's length, and each entry is the lookup of the type at that position |
| FilterExtensions.GetFilters | app/lib/util/filter-extensions.js:69-78 | one entry per requested type, in order: present exactly for known keys, and then the table's filter |
| FilterExtensions.SingleTypeIsOneElementList | app/lib/util/filter-extensions.js:71-73 | asking for one type gives the same result as asking for the one-element list |
| FilterExtensions.FiltersOfConcatenation | app/lib/util/filter-extensions.js:75-77 | the filters of a concatenated list are the concatenation of the filters |
| FilterExtensions.DiagramFiltersAreSupported | app/lib/util/filter-extensions.js:25-44 | the bpmn, dmn and cmmn filters contain their own extension and "xml", and all their extensions are in the supported filter |
| FilterExtensions.ImageAndCatchAllFilters | app/lib/util/filter-extensions.js:20-56 | the images filter is the png, jpeg and svg filters concatenated in that order; the all filter accepts only "*" |
| Engines.FindProfile | client/src/util/Engines.js:35-37 | the first profile for the platform; absent exactly when no profile has that platform |
| Engines.GetLatestStable | client/src/util/Engines.js:34-44 | it fails, with the source's message, exactly when no profile has the platform; otherwise it returns the latest stable version of that platform's profile |
| Engines.LatestStableIsNewest | client/src/util/Engines.js:16-27 | every profile's latest stable version is the first of its versions, so it is one of them |
| Engines.ProfilesCoverEngines | client/src/util/Engines.js:11-32 | profile platforms are distinct and cover both engines, and every engine has a label |
| Engines.LatestStableOfEngines | client/src/util/Engines.js:34-44 | the lookup gives "7.19.0" for Camunda Platform and "8.2.0" for Camunda Cloud |
| Engines.UnknownPlatformFails | client/src/util/Engines.js:39-41 | any other platform makes the lookup fail |

## Left out

- The engine SDK is not modelled. This covers `ZBClient` construction, `topology`, `deployProcess`, `createProcessInstance` and `close`. Their outcomes are function parameters. A close is recorded in the cache history, and construction is a numbered token.
- `async`/`await` and interleaving are not modelled, because operations are taken to run one at a time.
- Logging is not modelled. This covers `log.error`/`log.warn` and the `withoutSecrets` call inside each `catch`. `withoutSecrets` itself is modelled.
- `_readRootCertificate` is an oracle from the configured path to optional contents. Its file read, its cwd-relative path resolution, and its X509 parse with the non-root warning are I/O and crypto, so they are not modelled.
- `getSystemCertificates` is not modelled, because it reads the OS keychain. It is an input sequence.
- The `Buffer.from(rootCerts.join('\n'))` encoding is not modelled. `customSSL` holds the ordered list instead.
- `isHashEqual` is modelled as datatype equality. The source compares `JSON.stringify` output, which is sensitive to key order. Two equal endpoints whose properties were written in a different order would miss the cache there.
- On a cache hit, the client built earlier is reused even if the certificate flag or the trust store has changed since. The model keeps this behaviour and states nothing more about it.
- In `deploy`, the file read is a `contents` parameter. A read failure throws before the `try`, and that case is not modelled.
- Error objects hold only string and integer values. A truthy message that is not a string is treated as absent. In the source, `.includes` would throw on it.
- Names and file types that are not strings are out of the model's types.
- `Paths.Stem` covers only POSIX paths, and only `basename` with the suffix that `extname` returns. Windows separators are not modelled.
- Translated filter names are not modelled. The filter holds the translation key instead.
- `getFilters` is modelled for a string or an array only. A key that names an `Object.prototype` member such as "toString" is unknown in the model. In JavaScript it yields the inherited member.
- The menu builders in client/src/app/tabs/getEditMenu.js and client/src/app/tabs/bpmn/getBpmnWindowMenu.js are left out. They are tables of translated labels with no logic to state.
- ClientCache.GetClient: the SDK's construction outcome is a parameter. Which inputs make `getSystemCertificates` reject or the `ZBClient` constructor throw is not modelled.

## Findings

| source | as written | input that shows it | evidently intended | confidence | as-written member | corrected member |
|---|---|---|---|---|---|---|
| app/lib/zeebe-api/zeebe-api.js:251-256 | The cached client is closed before its replacement is constructed. `_zeebeClient` and `_cachedEndpoint` are only overwritten once construction succeeds. | Take a client cached for endpoint A, then a request for endpoint B whose construction throws (the system certificate read rejects, say). A later request for A is served the closed client. A request for a third endpoint closes that client a second time. | Once closed, a client is neither served nor closed again: the slot is emptied when its client is closed. | medium; not executed | ClientCache.GetClientAsWritten (shown by ClientCache.StaleClientAfterFailedConstruction) | ClientCache.GetClient (proved by ClientCache.GetClientKeepsInv and ClientCache.FailedConstructionClosesOnce) |

The four operations use the corrected `ClientCache.GetClient`. They differ
from the source only after a failed construction.

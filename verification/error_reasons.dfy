/** `getErrorReason` of app/lib/zeebe-api/zeebe-api.js: the classification of
    a failed call into the closed set of reasons the user interface explains.
    gRPC status codes are checked before the (heuristic) message text, and the
    endpoint's type refines both. */
module ErrorReasons {
  import opened Wrappers
  import opened Strings
  import opened JsObjects
  import opened Endpoints

  /** The nine `errorReasons`. */
  datatype ErrorReason =
    | Unknown
    | ContactPointUnavailable
    | Unauthorized
    | ClusterUnavailable
    | Forbidden
    | OAuthUrl
    | UnsupportedEngine
    | InvalidClientId
    | InvalidCredentials

  const ReasonNames: set<string> := {
    "UNKNOWN", "CONTACT_POINT_UNAVAILABLE", "UNAUTHORIZED", "CLUSTER_UNAVAILABLE", "FORBIDDEN",
    "OAUTH_URL", "UNSUPPORTED_ENGINE", "INVALID_CLIENT_ID", "INVALID_CREDENTIALS"
  }

  /** The string the client reports for a reason. */
  function ReasonName(r: ErrorReason): (name: string)
    ensures name in ReasonNames
  {
    match r
    case Unknown => "UNKNOWN"
    case ContactPointUnavailable => "CONTACT_POINT_UNAVAILABLE"
    case Unauthorized => "UNAUTHORIZED"
    case ClusterUnavailable => "CLUSTER_UNAVAILABLE"
    case Forbidden => "FORBIDDEN"
    case OAuthUrl => "OAUTH_URL"
    case UnsupportedEngine => "UNSUPPORTED_ENGINE"
    case InvalidClientId => "INVALID_CLIENT_ID"
    case InvalidCredentials => "INVALID_CREDENTIALS"
  }

  /** Distinct reasons are reported under distinct names, so the report can be
      told apart by the user interface. */
  lemma ReasonNamesDistinct(a: ErrorReason, b: ErrorReason)
    ensures ReasonName(a) == ReasonName(b) <==> a == b
  {
  }

  /** gRPC status codes the classification looks at (UNAVAILABLE, INTERNAL,
      UNIMPLEMENTED in the gRPC status code table). */
  const Unavailable := 14
  const Internal := 13
  const Unimplemented := 12

  const NotFoundMarkers: seq<string> := ["ENOTFOUND", "Not Found"]
  const UnauthorizedMarker := "Unauthorized"
  const ForbiddenMarker := "Forbidden"
  const UnsupportedProtocolMarker := "Unsupported protocol"

  /** `error.code`, when it is a number (`code === 14` is false for the
      string "14"). */
  function Code(err: ErrorObject): (r: Option<int>)
    ensures r.Some? <==> "code" in err && err["code"].JsNumber?
    ensures r.Some? ==> err["code"] == JsNumber(r.value)
  {
    if "code" in err && err["code"].JsNumber? then Some(err["code"].n) else None
  }

  /** `error.message`, when it is a string. */
  function Message(err: ErrorObject): (r: Option<string>)
    ensures r.Some? <==> "message" in err && err["message"].JsString?
    ensures r.Some? ==> err["message"] == JsString(r.value)
  {
    if "message" in err && err["message"].JsString? then Some(err["message"].s) else None
  }

  /** Some marker occurs in the message. */
  predicate MentionsAny(message: string, markers: seq<string>)
    decreases |markers|
  {
    |markers| > 0 && (Contains(message, markers[0]) || MentionsAny(message, markers[1..]))
  }

  /** `getErrorReason`: the reason a failed call is reported with. Which
      reasons can occur depends on the endpoint type: OAuth problems only for
      OAuth endpoints, cluster and client-id problems only for the cloud, a
      contact point or plain authorization problem never for the cloud; an
      unsupported engine is reported exactly for UNIMPLEMENTED. */
  function GetErrorReason(err: ErrorObject, e: Endpoint): (r: ErrorReason)
    ensures r == OAuthUrl ==> e.OAuth?
    ensures r == ClusterUnavailable || r == InvalidClientId || r == InvalidCredentials ==> e.CamundaCloud?
    ensures r == ContactPointUnavailable || r == Unauthorized ==> !e.CamundaCloud?
    ensures r == UnsupportedEngine <==> Code(err) == Some(Unimplemented)
  {
    var code := Code(err);
    var message := Message(err);
    var t := TypeName(e);
    // (1) gRPC status codes
    if code == Some(Unavailable) then
      (if t == CamundaCloudName then ClusterUnavailable else ContactPointUnavailable)
    else if code == Some(Internal) && t == CamundaCloudName then ClusterUnavailable
    else if code == Some(Unimplemented) then UnsupportedEngine
    // (2) no message to go by
    else if !Truthy(message) then Unknown
    // (3) host or resource not found
    else if MentionsAny(message.value, NotFoundMarkers) then
      (if t == OAuthName then OAuthUrl
       else if t == CamundaCloudName then InvalidClientId
       else ContactPointUnavailable)
    // (4) other messages
    else if Contains(message.value, UnauthorizedMarker) then
      (if t == CamundaCloudName then InvalidCredentials else Unauthorized)
    else if Contains(message.value, ForbiddenMarker) then Forbidden
    else if Contains(message.value, UnsupportedProtocolMarker) && t == OAuthName then OAuthUrl
    else Unknown
  }

  /** One of the status-code checks decides the reason before the message is
      looked at. */
  predicate CodeDecides(err: ErrorObject, e: Endpoint)
  {
    || Code(err) == Some(Unavailable)
    || (Code(err) == Some(Internal) && e.CamundaCloud?)
    || Code(err) == Some(Unimplemented)
  }

  /** Code 14 decides alone, whatever the message says: the cluster is
      unavailable for cloud endpoints, the contact point for all others. */
  lemma UnavailableAlwaysWins(err: ErrorObject, e: Endpoint, message: JsValue)
    requires Code(err) == Some(Unavailable)
    ensures GetErrorReason(err, e) == (if e.CamundaCloud? then ClusterUnavailable else ContactPointUnavailable)
    ensures GetErrorReason(err["message" := message], e) == GetErrorReason(err, e)
  {
  }

  /** Code 13 means an unavailable cluster only for cloud endpoints; for any
      other endpoint the code is ignored and the message decides. */
  lemma InternalOnlyForCloud(err: ErrorObject, e: Endpoint)
    requires Code(err) == Some(Internal)
    ensures e.CamundaCloud? ==> GetErrorReason(err, e) == ClusterUnavailable
    ensures !e.CamundaCloud? ==> GetErrorReason(err, e) == GetErrorReason(err - {"code"}, e)
  {
  }

  /** Code 12 means the engine does not support the call, for every endpoint
      type and whatever the message says. */
  lemma UnimplementedMeansUnsupportedEngine(err: ErrorObject, e: Endpoint, message: JsValue)
    requires Code(err) == Some(Unimplemented)
    ensures GetErrorReason(err, e) == UnsupportedEngine
    ensures GetErrorReason(err["message" := message], e) == UnsupportedEngine
  {
  }

  /** Without a deciding status code, an absent or empty message leaves the
      reason unknown. */
  lemma NoMessageIsUnknown(err: ErrorObject, e: Endpoint)
    requires !CodeDecides(err, e)
    requires !Truthy(Message(err))
    ensures GetErrorReason(err, e) == Unknown
  {
  }

  /** The message checks in their order: not found, then unauthorized, then
      forbidden, then (for OAuth only) an unsupported protocol, else unknown.
      An earlier marker wins over every later one. */
  lemma MessageChecksInOrder(err: ErrorObject, e: Endpoint)
    requires !CodeDecides(err, e)
    requires Truthy(Message(err))
    ensures var m := Message(err).value;
      var r := GetErrorReason(err, e);
      var notFound := MentionsAny(m, NotFoundMarkers);
      var unauthorized := Contains(m, UnauthorizedMarker);
      var forbidden := Contains(m, ForbiddenMarker);
      && (notFound ==>
            r == (if e.OAuth? then OAuthUrl else if e.CamundaCloud? then InvalidClientId else ContactPointUnavailable))
      && (!notFound && unauthorized ==> r == (if e.CamundaCloud? then InvalidCredentials else Unauthorized))
      && (!notFound && !unauthorized && forbidden ==> r == Forbidden)
      && (!notFound && !unauthorized && !forbidden ==>
            r == (if e.OAuth? && Contains(m, UnsupportedProtocolMarker) then OAuthUrl else Unknown))
  {
  }

  /** A message without a status code that lacks the capitals the markers
      start with ('E', 'N', 'U', 'F') is classified as unknown for every
      endpoint. */
  lemma UnmarkedMessageIsUnknown(err: ErrorObject, e: Endpoint)
    requires Code(err).None?
    requires Message(err).Some?
    requires 'E' !in Message(err).value && 'N' !in Message(err).value
    requires 'U' !in Message(err).value && 'F' !in Message(err).value
    ensures GetErrorReason(err, e) == Unknown
  {
    var m := Message(err).value;
    MissingCharNotContained(m, "ENOTFOUND", 'E');
    MissingCharNotContained(m, "Not Found", 'N');
    MissingCharNotContained(m, UnauthorizedMarker, 'U');
    MissingCharNotContained(m, ForbiddenMarker, 'F');
    MissingCharNotContained(m, UnsupportedProtocolMarker, 'U');
  }

  /* An independent, declarative statement of the same classification: a
     table of rules, the first applicable one deciding. */

  datatype Condition =
    | CodeIs(code: int)
    | MessageMissing
    | MessageMentions(markers: seq<string>)

  /** A rule applies when its condition holds and, if it names an endpoint
      type, the endpoint has that type. */
  datatype Rule = Rule(condition: Condition, onlyFor: Option<string>, reason: ErrorReason)

  const Rules: seq<Rule> := [
    Rule(CodeIs(Unavailable), Some(CamundaCloudName), ClusterUnavailable),
    Rule(CodeIs(Unavailable), None, ContactPointUnavailable),
    Rule(CodeIs(Internal), Some(CamundaCloudName), ClusterUnavailable),
    Rule(CodeIs(Unimplemented), None, UnsupportedEngine),
    Rule(MessageMissing, None, Unknown),
    Rule(MessageMentions(NotFoundMarkers), Some(OAuthName), OAuthUrl),
    Rule(MessageMentions(NotFoundMarkers), Some(CamundaCloudName), InvalidClientId),
    Rule(MessageMentions(NotFoundMarkers), None, ContactPointUnavailable),
    Rule(MessageMentions([UnauthorizedMarker]), Some(CamundaCloudName), InvalidCredentials),
    Rule(MessageMentions([UnauthorizedMarker]), None, Unauthorized),
    Rule(MessageMentions([ForbiddenMarker]), None, Forbidden),
    Rule(MessageMentions([UnsupportedProtocolMarker]), Some(OAuthName), OAuthUrl)
  ]

  predicate Holds(c: Condition, err: ErrorObject)
  {
    match c
    case CodeIs(code) => Code(err) == Some(code)
    case MessageMissing => !Truthy(Message(err))
    case MessageMentions(markers) => Message(err).Some? && MentionsAny(Message(err).value, markers)
  }

  predicate Applies(rule: Rule, err: ErrorObject, e: Endpoint)
  {
    Holds(rule.condition, err) && (rule.onlyFor.None? || rule.onlyFor.value == TypeName(e))
  }

  /** The reason of the first applicable rule at position `from` or later,
      `Unknown` when none applies. */
  function Classify(rules: seq<Rule>, from: nat, err: ErrorObject, e: Endpoint): ErrorReason
    decreases |rules| - from
  {
    if from >= |rules| then Unknown
    else if Applies(rules[from], err, e) then rules[from].reason
    else Classify(rules, from + 1, err, e)
  }

  /** `Classify` picks the first applicable rule: some rule applies, none
      before it does, and its reason is the result; with no applicable rule
      the result is `Unknown`. */
  lemma {:induction false} ClassifyIsFirstMatch(rules: seq<Rule>, from: nat, err: ErrorObject, e: Endpoint)
    ensures (exists i :: from <= i < |rules| && Applies(rules[i], err, e)) ==>
      exists i :: from <= i < |rules| && Applies(rules[i], err, e) && Classify(rules, from, err, e) == rules[i].reason
        && forall j :: from <= j < i ==> !Applies(rules[j], err, e)
    ensures (forall i :: from <= i < |rules| ==> !Applies(rules[i], err, e)) ==> Classify(rules, from, err, e) == Unknown
    decreases |rules| - from
  {
    if from < |rules| {
      if Applies(rules[from], err, e) {
        assert from <= from < |rules| && Applies(rules[from], err, e) && Classify(rules, from, err, e) == rules[from].reason;
      } else {
        ClassifyIsFirstMatch(rules, from + 1, err, e);
      }
    }
  }

  /** One step of `Classify` along the rule table. */
  lemma ClassifyStep(i: nat, err: ErrorObject, e: Endpoint)
    requires i < |Rules|
    ensures Classify(Rules, i, err, e) ==
      if Applies(Rules[i], err, e) then Rules[i].reason else Classify(Rules, i + 1, err, e)
  {
  }

  /** When no status-code rule applies and there is a message, the table
      is decided by its message rules alone. */
  lemma SkipCodeRules(err: ErrorObject, e: Endpoint)
    requires Code(err) != Some(Unavailable) && Code(err) != Some(Unimplemented)
    requires Code(err) == Some(Internal) ==> TypeName(e) != CamundaCloudName
    requires Truthy(Message(err))
    ensures Classify(Rules, 0, err, e) == Classify(Rules, 5, err, e)
  {
    ClassifyStep(0, err, e);
    ClassifyStep(1, err, e);
    ClassifyStep(2, err, e);
    ClassifyStep(3, err, e);
    ClassifyStep(4, err, e);
  }

  /** `getErrorReason` is exactly the first-applicable-rule reading of the
      table: the precedence of its checks is the order of `Rules`. */
  lemma GetErrorReasonFollowsRules(err: ErrorObject, e: Endpoint)
    ensures GetErrorReason(err, e) == Classify(Rules, 0, err, e)
  {
    if Code(err) == Some(Unavailable) {
      ClassifyStep(0, err, e);
      ClassifyStep(1, err, e);
    } else if Code(err) == Some(Internal) && TypeName(e) == CamundaCloudName {
      ClassifyStep(0, err, e);
      ClassifyStep(1, err, e);
      ClassifyStep(2, err, e);
    } else if Code(err) == Some(Unimplemented) {
      ClassifyStep(0, err, e);
      ClassifyStep(1, err, e);
      ClassifyStep(2, err, e);
      ClassifyStep(3, err, e);
    } else if !Truthy(Message(err)) {
      ClassifyStep(0, err, e);
      ClassifyStep(1, err, e);
      ClassifyStep(2, err, e);
      ClassifyStep(3, err, e);
      ClassifyStep(4, err, e);
    } else {
      SkipCodeRules(err, e);
      MessageRulesAgree(err, e);
    }
  }

  /** With no status-code rule applicable and a message present, the message
      rules of the table decide as the message checks of `getErrorReason`. */
  lemma MessageRulesAgree(err: ErrorObject, e: Endpoint)
    requires Code(err) != Some(Unavailable) && Code(err) != Some(Unimplemented)
    requires Code(err) == Some(Internal) ==> TypeName(e) != CamundaCloudName
    requires Truthy(Message(err))
    ensures GetErrorReason(err, e) == Classify(Rules, 5, err, e)
  {
    var m := Message(err).value;
    assert MentionsAny(m, [UnauthorizedMarker]) <==> Contains(m, UnauthorizedMarker);
    assert MentionsAny(m, [ForbiddenMarker]) <==> Contains(m, ForbiddenMarker);
    assert MentionsAny(m, [UnsupportedProtocolMarker]) <==> Contains(m, UnsupportedProtocolMarker);
    ClassifyStep(5, err, e);
    ClassifyStep(6, err, e);
    ClassifyStep(7, err, e);
    ClassifyStep(8, err, e);
    ClassifyStep(9, err, e);
    ClassifyStep(10, err, e);
    ClassifyStep(11, err, e);
  }
}

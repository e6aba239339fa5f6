/**
 * The request side of the Instagram webhook route: the `validateWebhookRequest`
 * middleware that every `/webhook` request passes first, the GET subscription
 * handshake, and the view of a validated event body the POST handler iterates over.
 */
module Webhook {
  import opened JsValues

  /** An Express request after `express.json()`: HTTP method (`verb`), parsed query string and body. */
  datatype Request = Request(verb: string, query: map<string, Json>, body: Json)

  /** A JSON response: status code and body. */
  datatype Response = Response(status: int, body: Json)

  /** The answers the middleware gives instead of calling `next()`. */
  datatype Rejection =
    | MissingVerificationParameters
    | InvalidBody
    | InvalidPayload
    | InvalidEntry
    | InvalidChange
    | MethodNotAllowed

  /**
   * What the middleware does with a request: pass it on, answer it, or throw a
   * TypeError (reading a property of a `null` entry or change).
   */
  datatype Verdict = Pass | Reject(why: Rejection) | Threw

  const ModeParam := "hub.mode"
  const TokenParam := "hub.verify_token"
  const ChallengeParam := "hub.challenge"

  /** `req.query[name]`. */
  function Query(q: map<string, Json>, name: string): Option<Json>
  {
    if name in q then Some(q[name]) else None
  }

  predicate NonEmptyArray(v: Option<Json>)
  {
    v.Some? && v.value.JArr? && |v.value.items| > 0
  }

  /** `!entry.changes || !Array.isArray(entry.changes) || entry.changes.length === 0`. */
  predicate BadEntry(e: Json)
  {
    !NonEmptyArray(Prop(e, "changes"))
  }

  /** `!change.value || !change.value.comment_id || !['comments'].includes(change.field)`. */
  predicate BadChange(c: Json)
  {
    var v := Prop(c, "value");
    !Truthy(v) || !Truthy(PropOf(v, "comment_id")) || Prop(c, "field") != Some(JStr("comments"))
  }

  /** A change the scan passes over: not `null`, and not bad. */
  predicate ChangeOk(c: Json)
  {
    c != JNull && !BadChange(c)
  }

  /** The `changes` array of an entry, empty when there is none. */
  function ChangesOf(e: Json): seq<Json>
  {
    match Prop(e, "changes")
    case Some(JArr(cs)) => cs
    case _ => []
  }

  /** How a short-circuiting `some` over changes ends: nothing found, a bad change, or a throw. */
  datatype Scan = Clean | Found | Crashed

  /** `cs[i]` is the first change that `some` stops at. */
  predicate FirstOffender(cs: seq<Json>, i: int)
  {
    0 <= i < |cs| && !ChangeOk(cs[i]) && forall j :: 0 <= j < i ==> ChangeOk(cs[j])
  }

  /** Every change of entry `e` is a good one. */
  predicate ChangesOk(e: Json)
  {
    forall j :: 0 <= j < |ChangesOf(e)| ==> ChangeOk(ChangesOf(e)[j])
  }

  /** `changes.some(change => BadChange(change))`, which throws on a `null` change it reaches. */
  function ScanChanges(cs: seq<Json>): (r: Scan)
    ensures r == Clean <==> forall i :: 0 <= i < |cs| ==> ChangeOk(cs[i])
    ensures r == Crashed ==> JNull in cs
    ensures r == Found ==> exists i :: 0 <= i < |cs| && cs[i] != JNull && BadChange(cs[i])
    ensures r != Clean ==> exists i :: FirstOffender(cs, i) && (r == Crashed <==> cs[i] == JNull)
  {
    if |cs| == 0 then Clean
    else if cs[0] == JNull then
      assert FirstOffender(cs, 0);
      Crashed
    else if BadChange(cs[0]) then
      assert FirstOffender(cs, 0);
      Found
    else
      var r := ScanChanges(cs[1..]);
      assert forall i :: 1 <= i < |cs| ==> cs[i] == cs[1..][i - 1];
      if r == Clean then r
      else
        var i :| FirstOffender(cs[1..], i) && (r == Crashed <==> cs[1..][i] == JNull);
        assert FirstOffender(cs, i + 1);
        r
  }

  /**
   * The entry scan stops at change `j` of entry `i`: every earlier entry is
   * all good, `j` is the first offender of entry `i`, and the scan's result
   * `r` is `Crashed` exactly when that change is `null`.
   */
  predicate StopsAt(es: seq<Json>, i: int, j: int, r: Scan)
  {
    0 <= i < |es| && (forall k :: 0 <= k < i ==> ChangesOk(es[k])) &&
    FirstOffender(ChangesOf(es[i]), j) && (r == Crashed <==> ChangesOf(es[i])[j] == JNull)
  }

  /** `entry.some(entry => entry.changes.some(...))`: entries in order, each scanned in order. */
  function ScanEntries(es: seq<Json>): (r: Scan)
    ensures r == Clean <==>
      forall i, j :: 0 <= i < |es| && 0 <= j < |ChangesOf(es[i])| ==> ChangeOk(ChangesOf(es[i])[j])
    ensures r == Crashed ==> exists i :: 0 <= i < |es| && JNull in ChangesOf(es[i])
    ensures r == Found ==> exists i, j :: (0 <= i < |es| && 0 <= j < |ChangesOf(es[i])| &&
      ChangesOf(es[i])[j] != JNull && BadChange(ChangesOf(es[i])[j]))
    ensures r != Clean ==> exists i, j :: StopsAt(es, i, j, r)
  {
    if |es| == 0 then Clean
    else
      var first := ScanChanges(ChangesOf(es[0]));
      if first != Clean then
        var j :| FirstOffender(ChangesOf(es[0]), j) && (first == Crashed <==> ChangesOf(es[0])[j] == JNull);
        assert StopsAt(es, 0, j, first);
        first
      else
        var r := ScanEntries(es[1..]);
        assert forall i :: 1 <= i < |es| ==> es[i] == es[1..][i - 1];
        if r == Clean then r
        else
          var i, j :| StopsAt(es[1..], i, j, r);
          StopsAtNext(es, i, j, r);
          r
  }

  /** A stop in the entries after a good first entry is a stop one entry later. */
  lemma StopsAtNext(es: seq<Json>, i: int, j: int, r: Scan)
    requires |es| > 0 && ChangesOk(es[0]) && StopsAt(es[1..], i, j, r)
    ensures StopsAt(es, i + 1, j, r)
  {
    assert es[i + 1] == es[1..][i];
    forall k | 0 <= k < i + 1
      ensures ChangesOk(es[k])
    {
      if k > 0 {
        assert es[k] == es[1..][k - 1];
      }
    }
  }

  /** An event body whose every entry has a non-empty `changes` array of good changes. */
  predicate WellFormedEvent(es: seq<Json>)
  {
    (forall i :: 0 <= i < |es| ==> es[i] != JNull && !BadEntry(es[i])) &&
    (forall i, j :: 0 <= i < |es| && 0 <= j < |ChangesOf(es[i])| ==> ChangeOk(ChangesOf(es[i])[j]))
  }

  /** `validateWebhookRequest`. */
  function ValidateRequest(req: Request): (v: Verdict)
    ensures req.verb == "GET" ==>
      (v == Pass <==>
        Truthy(Query(req.query, ModeParam)) && Truthy(Query(req.query, TokenParam)) &&
        Truthy(Query(req.query, ChallengeParam)))
    ensures req.verb == "GET" ==> v != Threw && (v.Reject? ==> v.why == MissingVerificationParameters)
    ensures req.verb == "POST" ==>
      (v == Pass <==>
        (req.body.JArr? || req.body.JObj?) && NonEmptyArray(Prop(req.body, "entry")) &&
        WellFormedEvent(Prop(req.body, "entry").value.items))
    ensures req.verb == "POST" ==> v == ValidateEvent(req.body)
    ensures req.verb != "GET" && req.verb != "POST" ==> v == Reject(MethodNotAllowed)
  {
    if req.verb == "GET" then
      if !Truthy(Query(req.query, ModeParam)) || !Truthy(Query(req.query, TokenParam)) ||
         !Truthy(Query(req.query, ChallengeParam))
      then Reject(MissingVerificationParameters)
      else Pass
    else if req.verb == "POST" then
      ValidateEvent(req.body)
    else Reject(MethodNotAllowed)
  }

  /** The POST checks, in the order the middleware makes them. */
  function ValidateEvent(body: Json): (v: Verdict)
    ensures v == Pass <==>
      (body.JArr? || body.JObj?) && NonEmptyArray(Prop(body, "entry")) &&
      WellFormedEvent(Prop(body, "entry").value.items)
    ensures v == Reject(InvalidBody) <==> !(body.JArr? || body.JObj?)
    ensures v == Reject(InvalidPayload) <==>
      (body.JArr? || body.JObj?) && !NonEmptyArray(Prop(body, "entry"))
    ensures v == Reject(InvalidEntry) <==>
      (body.JArr? || body.JObj?) && NonEmptyArray(Prop(body, "entry")) &&
      JNull !in Prop(body, "entry").value.items &&
      exists i :: 0 <= i < |Prop(body, "entry").value.items| && BadEntry(Prop(body, "entry").value.items[i])
    ensures v == Reject(InvalidChange) <==>
      (body.JArr? || body.JObj?) && NonEmptyArray(Prop(body, "entry")) &&
      (forall i :: 0 <= i < |Prop(body, "entry").value.items| ==>
        Prop(body, "entry").value.items[i] != JNull && !BadEntry(Prop(body, "entry").value.items[i])) &&
      ScanEntries(Prop(body, "entry").value.items) == Found
    // the middleware throws on a `null` entry, or on a `null` change once every entry passed
    ensures v == Threw <==>
      (body.JArr? || body.JObj?) && NonEmptyArray(Prop(body, "entry")) &&
      (JNull in Prop(body, "entry").value.items ||
       ((forall i :: 0 <= i < |Prop(body, "entry").value.items| ==> !BadEntry(Prop(body, "entry").value.items[i])) &&
        ScanEntries(Prop(body, "entry").value.items) == Crashed))
    ensures v != Reject(MissingVerificationParameters) && v != Reject(MethodNotAllowed)
  {
    if !(body.JArr? || body.JObj?) then Reject(InvalidBody)
    else
      var entry := Prop(body, "entry");
      if !NonEmptyArray(entry) then Reject(InvalidPayload)
      else
        var es := entry.value.items;
        if JNull in es then Threw
        else if exists i :: 0 <= i < |es| && BadEntry(es[i]) then Reject(InvalidEntry)
        else
          match ScanEntries(es)
          case Clean => Pass
          case Found => Reject(InvalidChange)
          case Crashed => Threw
  }

  function ErrorBody(error: string, details: string): Json
  {
    JObj(map["error" := JStr(error), "details" := JStr(details)])
  }

  /** The response the middleware sends for each rejection. */
  function RejectionResponse(r: Rejection): (resp: Response)
    ensures resp.status == (if r == MethodNotAllowed then 405 else 400)
  {
    match r
    case MissingVerificationParameters =>
      Response(400, JObj(map[
        "error" := JStr("Missing required verification parameters"),
        "required" := JArr([JStr(ModeParam), JStr(TokenParam), JStr(ChallengeParam)])]))
    case InvalidBody =>
      Response(400, ErrorBody("Invalid request body", "Request body must be a valid JSON object"))
    case InvalidPayload =>
      Response(400, ErrorBody("Invalid webhook payload", "Request must contain a non-empty entry array"))
    case InvalidEntry =>
      Response(400, ErrorBody("Invalid entry structure", "Each entry must contain a non-empty changes array"))
    case InvalidChange =>
      Response(400, ErrorBody("Invalid change object",
        "Each change must contain a valid value object with comment_id and valid field type"))
    case MethodNotAllowed =>
      Response(405, ErrorBody("Method not allowed", "Only GET and POST methods are supported"))
  }

  /** The application-level error handler's answer to anything thrown in a route. */
  const Broke := Response(500, JStr("Something broke!"))

  /**
   * The GET route: echo the challenge when the mode is `subscribe` and the token is the
   * configured one (`verifyToken`, None when the environment variable is unset).
   */
  function Handshake(query: map<string, Json>, verifyToken: Option<string>): (r: Response)
    ensures r.status == 200 <==>
      Query(query, ModeParam) == Some(JStr("subscribe")) && verifyToken.Some? && verifyToken.value != "" &&
      Query(query, TokenParam) == Some(JStr(verifyToken.value))
    ensures r.status == 200 && ChallengeParam in query ==> r.body == query[ChallengeParam]
    ensures r.status == 400 <==> !Truthy(Query(query, ModeParam)) || !Truthy(Query(query, TokenParam))
    ensures r.status in {200, 400, 403}
  {
    var mode := Query(query, ModeParam);
    var token := Query(query, TokenParam);
    if Truthy(mode) && Truthy(token) then
      if mode == Some(JStr("subscribe")) && verifyToken.Some? && token == Some(JStr(verifyToken.value)) then
        Response(200, if ChallengeParam in query then query[ChallengeParam] else JNull)
      else Response(403, JObj(map["error" := JStr("Invalid verification token")]))
    else Response(400, JObj(map["error" := JStr("Missing required parameters")]))
  }

  /** One change as the POST handler reads it: `change.value.comment_id` and `change.value.media_id`. */
  datatype ChangeRef = ChangeRef(commentId: Option<Json>, mediaId: Option<Json>)

  function RefOf(c: Json): ChangeRef
  {
    var v := Prop(c, "value");
    ChangeRef(PropOf(v, "comment_id"), PropOf(v, "media_id"))
  }

  /** The changes of one entry, as the handler's inner loop visits them. */
  function EntryRefs(e: Json): (r: seq<ChangeRef>)
    ensures |r| == |ChangesOf(e)|
  {
    var cs := ChangesOf(e);
    seq(|cs|, i requires 0 <= i < |cs| => RefOf(cs[i]))
  }

  /** `req.body.entry` as the handler's outer loop visits it. */
  function Entries(body: Json): (r: seq<seq<ChangeRef>>)
    ensures Prop(body, "entry").Some? && Prop(body, "entry").value.JArr? ==>
      |r| == |Prop(body, "entry").value.items|
  {
    match Prop(body, "entry")
    case Some(JArr(es)) => seq(|es|, i requires 0 <= i < |es| => EntryRefs(es[i]))
    case _ => []
  }

  // ---------------------------------------------------------------------------
  // Properties of the middleware and the handshake

  /** A GET request missing any of the three parameters is answered 400 and never reaches the route. */
  lemma GetMissingParameters(req: Request)
    requires req.verb == "GET"
    ensures ValidateRequest(req) == Reject(MissingVerificationParameters) <==>
      !Truthy(Query(req.query, ModeParam)) || !Truthy(Query(req.query, TokenParam)) ||
      !Truthy(Query(req.query, ChallengeParam))
    ensures RejectionResponse(MissingVerificationParameters).status == 400
  {
  }

  /** After the middleware passed a GET request, the route's own 400 branch cannot be taken. */
  lemma HandshakeAfterValidation(req: Request, verifyToken: Option<string>)
    requires req.verb == "GET" && ValidateRequest(req) == Pass
    ensures Handshake(req.query, verifyToken).status in {200, 403}
    ensures Handshake(req.query, verifyToken).status == 200 <==>
      req.query[ModeParam] == JStr("subscribe") && verifyToken.Some? &&
      req.query[TokenParam] == JStr(verifyToken.value)
    ensures Handshake(req.query, verifyToken).status == 200 ==>
      Handshake(req.query, verifyToken).body == req.query[ChallengeParam]
  {
  }

  /** An unset verification token makes every handshake fail. */
  lemma NoTokenNoSubscription(query: map<string, Json>)
    ensures Handshake(query, None).status != 200
  {
  }

  /**
   * A body the middleware passes has at least one entry, every entry at least one change,
   * and every change a truthy `comment_id`: the handler's own checks never skip anything.
   */
  lemma {:induction false} ValidatedEntries(body: Json)
    requires ValidateEvent(body) == Pass
    ensures |Entries(body)| > 0
    ensures forall i :: 0 <= i < |Entries(body)| ==> |Entries(body)[i]| > 0
    ensures forall i, j :: 0 <= i < |Entries(body)| && 0 <= j < |Entries(body)[i]| ==>
      Truthy(Entries(body)[i][j].commentId)
  {
    var es := Prop(body, "entry").value.items;
    assert WellFormedEvent(es);
    forall i, j | 0 <= i < |Entries(body)| && 0 <= j < |Entries(body)[i]|
      ensures Truthy(Entries(body)[i][j].commentId)
    {
      assert Entries(body)[i] == EntryRefs(es[i]);
      assert ChangeOk(ChangesOf(es[i])[j]);
    }
  }

  /** A `null` anywhere in `entry` throws, even after an entry the filter would reject. */
  lemma NullEntryThrows(body: Json)
    requires body.JObj? && NonEmptyArray(Prop(body, "entry"))
    requires JNull in Prop(body, "entry").value.items
    ensures ValidateEvent(body) == Threw
  {
  }

  /** A bad change is reported only once every entry has passed the entry check. */
  lemma EntryCheckBeforeChangeCheck(body: Json, i: nat)
    requires body.JObj? && NonEmptyArray(Prop(body, "entry"))
    requires i < |Prop(body, "entry").value.items|
    requires BadEntry(Prop(body, "entry").value.items[i])
    ensures ValidateEvent(body) in {Threw, Reject(InvalidEntry)}
  {
  }
}

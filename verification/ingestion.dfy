/**
 * The POST `/webhook` handler: for every change of every entry it fetches the comment
 * from the Instagram API, normalises the author's username, builds the record payload,
 * validates it against `commentValidation.create`, and saves it through the `Comment`
 * model, collecting one processed record or one error per change; then it answers
 * 200, 207 or 422 according to the mix. `Serve` puts the middleware, the handshake and
 * this handler together the way the router chains them.
 */
module Ingestion {
  import opened JsValues
  import opened CommentRules
  import opened CommentSchema
  import opened Webhook

  const PostUrlPrefix := "https://www.instagram.com/p/"
  const InvalidUsernameMessage := "Invalid Instagram username format"
  const FetchFailurePrefix := "Failed to fetch comment data: "
  const AllProcessedMessage := "All comments processed successfully"

  /** The fields of a fetched comment the handler reads. */
  datatype ExternalComment = ExternalComment(
    username: Option<Json>, text: Option<Json>, from: Option<Json>, timestamp: Option<Json>)

  /**
   * Everything outside the handler: the comment API (by position of the change in the
   * batch and comment id; an error carries the API error's message), the database write
   * for the record of a given change (a fault message, or None when the write succeeds),
   * `Date.parse` for strings, and the Joi library behaviour.
   */
  datatype Env = Env(
    fetch: (nat, Json) -> Result<ExternalComment, string>,
    write: nat -> Option<string>,
    dateParse: string -> Option<int>,
    lib: Lib)

  /** An entry of the `errors` list. */
  datatype ItemError = ItemError(commentId: Json, error: string)

  /** What became of one change. */
  datatype Outcome = Saved(doc: Payload) | Failed(err: ItemError)

  /** `processedComments` and `errors`. */
  datatype Batch = Batch(processed: seq<Payload>, errors: seq<ItemError>)

  // ---------------------------------------------------------------------------
  // One change

  /**
   * `extractInstagramUsername`: drop the first '@' (wherever it is), trim, and accept
   * only 1 to 30 letters, digits, '.' and '_'. A value that is not a string throws the
   * TypeError calling `replace` on it raises.
   */
  function ExtractInstagramUsername(username: Option<Json>): (r: Result<string, string>)
    ensures r.Ok? ==> Matches(UsernamePattern, r.value)
    ensures r.Ok? ==> username.Some? && username.value.JStr? && r.value == Trim(RemoveFirst(username.value.s, '@'))
    ensures username.Some? && username.value.JStr? && r.Err? ==> r.error == InvalidUsernameMessage
    ensures username.Some? && username.value.JStr? ==>
      (r.Ok? <==> Matches(UsernamePattern, Trim(RemoveFirst(username.value.s, '@'))))
  {
    match username
    case None => Err("Cannot read properties of undefined (reading 'replace')")
    case Some(JNull) => Err("Cannot read properties of null (reading 'replace')")
    case Some(JStr(s)) =>
      var clean := Trim(RemoveFirst(s, '@'));
      if Matches(UsernamePattern, clean) then Ok(clean) else Err(InvalidUsernameMessage)
    case Some(_) => Err("username.replace is not a function")
  }

  /** `new Date(t)`: None is an Invalid Date. */
  function NewDate(t: Option<Json>, dateParse: string -> Option<int>): (r: Option<int>)
    ensures t.Some? && t.value.JNum? ==> (r.Some? <==> ValidTime(t.value.n))
    ensures t.None? ==> r.None?
    ensures r.Some? ==> ValidTime(r.value)
  {
    match t
    case None => None
    case Some(JNull) => Some(0)
    case Some(JBool(b)) => Some(if b then 1 else 0)
    case Some(JNum(n)) => if ValidTime(n) then Some(n) else None
    case Some(JStr(s)) => InRange(dateParse(s))
    case Some(j) => InRange(dateParse(JsonString(j)))
  }

  /** A parsed time, or an Invalid Date when it is out of a Date's range. */
  function InRange(t: Option<int>): Option<int>
  {
    if t.Some? && ValidTime(t.value) then t else None
  }

  /** `m` with key `f` set to `v`, or left out when `v` is undefined. */
  function With(m: Payload, f: Field, v: Option<Json>): Payload
  {
    if v.Some? then m[f := Js(v.value)] else m
  }

  /** `commentData.from?.full_name || commentData.username`. */
  function FullNameOf(c: ExternalComment): Option<Json>
  {
    var name := PropOf(c.from, "full_name");
    if Truthy(name) then name else c.username
  }

  /** `commentPayload` for a comment whose username normalised to `username`. */
  function CommentPayload(username: string, c: ExternalComment, mediaId: Option<Json>,
                          dateParse: string -> Option<int>): (p: Payload)
    ensures p.Keys == {InstagramUsername, ReceivedDate, Status, PostUrl} +
      (if c.text.Some? then {Comment} else {}) + (if mediaId.Some? then {MediaId} else {}) +
      (if FullNameOf(c).Some? then {FullName} else {})
    ensures p[InstagramUsername] == JsText(username) && p[Status] == JsText("pending")
    ensures p[PostUrl] == JsText(PostUrlPrefix + JsString(mediaId))
    ensures p[ReceivedDate] == DateObj(NewDate(c.timestamp, dateParse))
    ensures c.text.Some? ==> p[Comment] == Js(c.text.value)
    ensures mediaId.Some? ==> p[MediaId] == Js(mediaId.value)
    ensures FullNameOf(c).Some? ==> p[FullName] == Js(FullNameOf(c).value)
  {
    var base := map[InstagramUsername := JsText(username),
                    ReceivedDate := DateObj(NewDate(c.timestamp, dateParse)),
                    Status := JsText("pending"),
                    PostUrl := JsText(PostUrlPrefix + JsString(mediaId))];
    With(With(With(base, Comment, c.text), MediaId, mediaId), FullName, FullNameOf(c))
  }

  /** The comment was fetched and its username normalised. */
  predicate Named(id: Json, k: nat, env: Env)
  {
    env.fetch(k, id).Ok? && ExtractInstagramUsername(env.fetch(k, id).value.username).Ok?
  }

  /** The payload the handler builds for a change whose comment was fetched and named. */
  function PayloadFor(id: Json, mediaId: Option<Json>, k: nat, env: Env): Payload
    requires Named(id, k, env)
  {
    CommentPayload(ExtractInstagramUsername(env.fetch(k, id).value.username).value,
                   env.fetch(k, id).value, mediaId, env.dateParse)
  }

  /** Every stage of the try block goes through: fetch, username, Joi, `save()` validation, write. */
  predicate PassesEveryStage(id: Json, mediaId: Option<Json>, k: nat, env: Env)
  {
    Named(id, k, env) && Create(PayloadFor(id, mediaId, k, env), env.lib).Ok? &&
    Storable(Cast(PayloadFor(id, mediaId, k, env), env.lib.now)) && env.write(k).None?
  }

  /** The try block for one change: each stage's failure becomes that change's error. */
  function ProcessChange(id: Json, mediaId: Option<Json>, k: nat, env: Env): (o: Outcome)
    // a failure is reported under the change's own comment id, with the failing stage's message
    ensures o.Failed? ==> o.err.commentId == id
    ensures env.fetch(k, id).Err? ==> o == Failed(ItemError(id, FetchFailurePrefix + env.fetch(k, id).error))
    ensures env.fetch(k, id).Ok? && ExtractInstagramUsername(env.fetch(k, id).value.username).Err? ==>
      o == Failed(ItemError(id, ExtractInstagramUsername(env.fetch(k, id).value.username).error))
    ensures Named(id, k, env) && Create(PayloadFor(id, mediaId, k, env), env.lib).Err? ==>
      o == Failed(ItemError(id, Create(PayloadFor(id, mediaId, k, env), env.lib).error.message))
    ensures Named(id, k, env) && Create(PayloadFor(id, mediaId, k, env), env.lib).Ok? ==>
      var doc := Cast(PayloadFor(id, mediaId, k, env), env.lib.now);
      (!Storable(doc) ==> o == Failed(ItemError(id, ValidationMessage(SchemaErrors(doc))))) &&
      (Storable(doc) && env.write(k).Some? ==> o == Failed(ItemError(id, env.write(k).value)))
    // a record is written exactly when every stage goes through; it is the cast payload
    ensures o.Saved? <==> PassesEveryStage(id, mediaId, k, env)
    ensures o.Saved? ==> o.doc == Cast(PayloadFor(id, mediaId, k, env), env.lib.now) && Storable(o.doc)
  {
    match env.fetch(k, id)
    case Err(cause) => Failed(ItemError(id, FetchFailurePrefix + cause))
    case Ok(c) =>
      match ExtractInstagramUsername(c.username)
      case Err(msg) => Failed(ItemError(id, msg))
      case Ok(u) =>
        var p := CommentPayload(u, c, mediaId, env.dateParse);
        match Create(p, env.lib)
        case Err(e) => Failed(ItemError(id, e.message))
        case Ok(_) =>
          match SaveOutcome(Cast(p, env.lib.now), env.write(k))
          case Err(msg) => Failed(ItemError(id, msg))
          case Ok(d) => Saved(d)
  }

  /** One change, step by step, writing through the store. */
  method ProcessComment(store: CommentStore, id: Json, mediaId: Option<Json>, k: nat, env: Env)
    returns (o: Outcome)
    requires store.Valid()
    modifies store
    ensures store.Valid()
    ensures o == ProcessChange(id, mediaId, k, env)
    ensures store.records == old(store.records) + (if o.Saved? then [o.doc] else [])
  {
    var fetched := env.fetch(k, id);
    if fetched.Err? {
      return Failed(ItemError(id, FetchFailurePrefix + fetched.error));
    }
    var name := ExtractInstagramUsername(fetched.value.username);
    if name.Err? {
      return Failed(ItemError(id, name.error));
    }
    var payload := CommentPayload(name.value, fetched.value, mediaId, env.dateParse);
    var checked := Create(payload, env.lib);
    if checked.Err? {
      return Failed(ItemError(id, checked.error.message));
    }
    var newComment := Cast(payload, env.lib.now);
    var saved := store.Save(newComment, env.write(k));
    if saved.Err? {
      o := Failed(ItemError(id, saved.error));
    } else {
      o := Saved(saved.value);
    }
  }

  // ---------------------------------------------------------------------------
  // The batch

  /** The changes of all entries, in the order the two loops visit them. */
  function Flatten(es: seq<seq<ChangeRef>>): seq<ChangeRef>
  {
    if |es| == 0 then [] else Flatten(es[..|es| - 1]) + es[|es| - 1]
  }

  /** The number of changes whose `comment_id` is truthy. */
  function TruthyCount(cs: seq<ChangeRef>): nat
  {
    if |cs| == 0 then 0
    else TruthyCount(cs[..|cs| - 1]) + (if Truthy(cs[|cs| - 1].commentId) then 1 else 0)
  }

  /**
   * What becomes of the change at position `k` of the batch: nothing when its
   * `comment_id` is falsy and the handler skips it, otherwise its own outcome.
   */
  function OutcomeAt(c: ChangeRef, k: nat, env: Env): (o: Option<Outcome>)
    ensures o.Some? <==> Truthy(c.commentId)
  {
    if Truthy(c.commentId) then Some(ProcessChange(c.commentId.value, c.mediaId, k, env)) else None
  }

  /** The outcome of every change, each computed from that change and its position alone. */
  function Outcomes(cs: seq<ChangeRef>, env: Env): (os: seq<Option<Outcome>>)
    ensures |os| == |cs|
  {
    seq(|cs|, k requires 0 <= k < |cs| => OutcomeAt(cs[k], k, env))
  }

  /** Pushing one outcome onto `processedComments` or `errors`. */
  function Step(b: Batch, o: Option<Outcome>): Batch
  {
    match o
    case None => b
    case Some(Saved(d)) => Batch(b.processed + [d], b.errors)
    case Some(Failed(e)) => Batch(b.processed, b.errors + [e])
  }

  /** The two lists after pushing the outcomes `os` in order. */
  function Collect(os: seq<Option<Outcome>>): Batch
  {
    if |os| == 0 then Batch([], []) else Step(Collect(os[..|os| - 1]), os[|os| - 1])
  }

  /** What the loops have collected after visiting the changes `cs`. */
  function Run(cs: seq<ChangeRef>, env: Env): Batch
  {
    Collect(Outcomes(cs, env))
  }

  lemma OutcomesSnoc(cs: seq<ChangeRef>, c: ChangeRef, env: Env)
    ensures Outcomes(cs + [c], env) == Outcomes(cs, env) + [OutcomeAt(c, |cs|, env)]
  {
    var s := cs + [c];
    assert forall k :: 0 <= k < |cs| ==> s[k] == cs[k];
  }

  lemma CollectSnoc(os: seq<Option<Outcome>>, o: Option<Outcome>)
    ensures Collect(os + [o]) == Step(Collect(os), o)
  {
    var s := os + [o];
    assert s[..|s| - 1] == os;
  }

  /** Visiting one more change pushes its outcome. */
  lemma RunSnoc(cs: seq<ChangeRef>, c: ChangeRef, env: Env)
    ensures Run(cs + [c], env) == Step(Run(cs, env), OutcomeAt(c, |cs|, env))
  {
    OutcomesSnoc(cs, c, env);
    CollectSnoc(Outcomes(cs, env), OutcomeAt(c, |cs|, env));
  }

  lemma FlattenSnoc(es: seq<seq<ChangeRef>>, i: nat)
    requires i < |es|
    ensures Flatten(es[..i + 1]) == Flatten(es[..i]) + es[i]
  {
    assert es[..i + 1][..i] == es[..i];
  }

  lemma AppendAssoc<T>(a: seq<T>, b: seq<T>, c: seq<T>)
    ensures a + b + c == a + (b + c)
  {
  }

  /** The body of the inner loop: a change with a falsy `comment_id` is skipped. */
  method VisitChange(store: CommentStore, change: ChangeRef, k: nat, env: Env,
                     processed: seq<Payload>, errors: seq<ItemError>, ghost base: seq<Payload>)
    returns (processed': seq<Payload>, errors': seq<ItemError>)
    requires store.Valid() && store.records == base + processed
    modifies store
    ensures store.Valid() && store.records == base + processed'
    ensures Batch(processed', errors') == Step(Batch(processed, errors), OutcomeAt(change, k, env))
  {
    processed', errors' := processed, errors;
    if Truthy(change.commentId) {
      var o := ProcessComment(store, change.commentId.value, change.mediaId, k, env);
      if o.Saved? {
        processed' := processed + [o.doc];
        AppendAssoc(base, processed, [o.doc]);
      } else {
        errors' := errors + [o.err];
        assert store.records == base + processed + [];
      }
    }
  }

  /** The inner loop over the changes of one entry; `seen` are the changes visited before. */
  method VisitEntry(store: CommentStore, changes: seq<ChangeRef>, k: nat, env: Env,
                    processed: seq<Payload>, errors: seq<ItemError>,
                    ghost seen: seq<ChangeRef>, ghost base: seq<Payload>)
    returns (processed': seq<Payload>, errors': seq<ItemError>)
    requires store.Valid() && store.records == base + processed
    requires k == |seen| && Batch(processed, errors) == Run(seen, env)
    modifies store
    ensures store.Valid() && store.records == base + processed'
    ensures Batch(processed', errors') == Run(seen + changes, env)
  {
    processed', errors' := processed, errors;
    var j := 0;
    assert seen + changes[..0] == seen;
    while j < |changes|
      invariant 0 <= j <= |changes|
      invariant Batch(processed', errors') == Run(seen + changes[..j], env)
      invariant store.Valid() && store.records == base + processed'
    {
      var change := changes[j];
      processed', errors' := VisitChange(store, change, k + j, env, processed', errors', base);
      RunSnoc(seen + changes[..j], change, env);
      assert seen + changes[..j + 1] == seen + changes[..j] + [change];
      j := j + 1;
    }
    assert changes[..j] == changes;
  }

  /** The two `for` loops of the handler. */
  method ProcessEntries(store: CommentStore, entries: seq<seq<ChangeRef>>, env: Env) returns (b: Batch)
    requires store.Valid()
    modifies store
    ensures store.Valid()
    ensures b == Run(Flatten(entries), env)
    ensures store.records == old(store.records) + b.processed
  {
    var processed: seq<Payload> := [];
    var errors: seq<ItemError> := [];
    ghost var base := store.records;
    var i := 0;
    var k := 0;
    while i < |entries|
      invariant 0 <= i <= |entries|
      invariant k == |Flatten(entries[..i])|
      invariant Batch(processed, errors) == Run(Flatten(entries[..i]), env)
      invariant store.Valid() && store.records == base + processed
    {
      processed, errors := VisitEntry(store, entries[i], k, env, processed, errors,
                                      Flatten(entries[..i]), base);
      FlattenSnoc(entries, i);
      k := k + |entries[i]|;
      i := i + 1;
    }
    assert entries[..i] == entries;
    b := Batch(processed, errors);
  }

  // ---------------------------------------------------------------------------
  // Responses

  /** The body of the handler's answer. */
  datatype BatchBody =
    | AllProcessed(message: string, count: nat)
    | Mixed(success: seq<Payload>, errors: seq<ItemError>)
    | AllFailed(errors: seq<ItemError>)

  /** Any answer to a webhook request. */
  datatype Reply = Sent(response: Response) | Reported(code: int, body: BatchBody)

  function StatusOf(r: Reply): int
  {
    match r
    case Sent(resp) => resp.status
    case Reported(code, _) => code
  }

  /** The handler's final `if`: 200 when nothing failed, 207 for a mix, 422 when all failed. */
  function Classify(b: Batch): (r: Reply)
    ensures r.Reported?
    ensures r.code == 200 <==> |b.errors| == 0
    ensures r.code == 207 <==> |b.errors| > 0 && |b.processed| > 0
    ensures r.code == 422 <==> |b.errors| > 0 && |b.processed| == 0
    ensures r.code == 200 ==> r.body == AllProcessed(AllProcessedMessage, |b.processed|)
    ensures r.code == 207 ==> r.body == Mixed(b.processed, b.errors)
    ensures r.code == 422 ==> r.body == AllFailed(b.errors)
  {
    if |b.errors| > 0 then
      if |b.processed| > 0 then Reported(207, Mixed(b.processed, b.errors))
      else Reported(422, AllFailed(b.errors))
    else Reported(200, AllProcessed(AllProcessedMessage, |b.processed|))
  }

  /** The records a request adds to the collection. */
  function Stored(req: Request, env: Env): seq<Payload>
  {
    if req.verb == "POST" && ValidateRequest(req) == Pass then Run(Flatten(Entries(req.body)), env).processed
    else []
  }

  /**
   * The answer to a request on `/webhook`: the middleware first (a throw there reaches the
   * application's error handler), then the GET route or the POST handler.
   */
  function ServeReply(req: Request, verifyToken: Option<string>, env: Env): (r: Reply)
    ensures StatusOf(r) in {200, 207, 400, 403, 405, 422, 500}
    // a batch report answers exactly a POST that passed the middleware
    ensures r.Reported? <==> req.verb == "POST" && ValidateRequest(req) == Pass
    // only a POST body can make the middleware throw
    ensures StatusOf(r) == 500 ==> req.verb == "POST" && ValidateRequest(req) == Threw
    ensures req.verb != "GET" && req.verb != "POST" ==> StatusOf(r) == 405
  {
    match ValidateRequest(req)
    case Threw => Sent(Broke)
    case Reject(why) => Sent(RejectionResponse(why))
    case Pass =>
      if req.verb == "GET" then Sent(Handshake(req.query, verifyToken))
      else Classify(Run(Flatten(Entries(req.body)), env))
  }

  method Serve(store: CommentStore, req: Request, verifyToken: Option<string>, env: Env) returns (r: Reply)
    requires store.Valid()
    modifies store
    ensures store.Valid()
    ensures r == ServeReply(req, verifyToken, env)
    ensures store.records == old(store.records) + Stored(req, env)
  {
    var verdict := ValidateRequest(req);
    match verdict {
      case Threw =>
        r := Sent(Broke);
      case Reject(why) =>
        r := Sent(RejectionResponse(why));
      case Pass =>
        if req.verb == "GET" {
          r := Sent(Handshake(req.query, verifyToken));
        } else {
          var batch := ProcessEntries(store, Entries(req.body), env);
          r := Classify(batch);
        }
    }
  }

  // ---------------------------------------------------------------------------
  // Properties of the batch

  /** The number of changes that produced an outcome. */
  function Present(os: seq<Option<Outcome>>): nat
  {
    if |os| == 0 then 0 else Present(os[..|os| - 1]) + (if os[|os| - 1].Some? then 1 else 0)
  }

  /** Each outcome lands in exactly one of the two lists. */
  lemma {:induction false} CollectCounts(os: seq<Option<Outcome>>)
    ensures |Collect(os).processed| + |Collect(os).errors| == Present(os)
  {
    if |os| > 0 {
      CollectCounts(os[..|os| - 1]);
    }
  }

  /** A saved record or an error in the lists is one of the outcomes. */
  lemma {:induction false} CollectMembers(os: seq<Option<Outcome>>)
    ensures forall d :: d in Collect(os).processed ==> Some(Saved(d)) in os
    ensures forall e :: e in Collect(os).errors ==> Some(Failed(e)) in os
  {
    if |os| > 0 {
      CollectMembers(os[..|os| - 1]);
      assert forall x :: x in os[..|os| - 1] ==> x in os;
    }
  }

  /** Every outcome is in the lists: a failure does not stop later changes. */
  lemma {:induction false} CollectKeeps(os: seq<Option<Outcome>>, k: nat)
    requires k < |os|
    ensures os[k].Some? && os[k].value.Saved? ==> os[k].value.doc in Collect(os).processed
    ensures os[k].Some? && os[k].value.Failed? ==> os[k].value.err in Collect(os).errors
  {
    var n := |os| - 1;
    if k < n {
      assert os[..n][k] == os[k];
      CollectKeeps(os[..n], k);
    }
  }

  /** A change produces an outcome exactly when its `comment_id` is truthy. */
  lemma {:induction false} OutcomesPresent(cs: seq<ChangeRef>, env: Env)
    ensures Present(Outcomes(cs, env)) == TruthyCount(cs)
  {
    if |cs| > 0 {
      var n := |cs| - 1;
      OutcomesPresent(cs[..n], env);
      OutcomesSnoc(cs[..n], cs[n], env);
      assert cs[..n] + [cs[n]] == cs;
      var os := Outcomes(cs, env);
      assert os[..n] == Outcomes(cs[..n], env);
    }
  }

  /** Exactly one outcome, a record or an error, per change with a truthy `comment_id`. */
  lemma RunCounts(cs: seq<ChangeRef>, env: Env)
    ensures |Run(cs, env).processed| + |Run(cs, env).errors| == TruthyCount(cs)
  {
    CollectCounts(Outcomes(cs, env));
    OutcomesPresent(cs, env);
  }

  /** Every change the loops process (its `comment_id` is truthy) passes every stage. */
  predicate AllPass(cs: seq<ChangeRef>, env: Env)
  {
    forall k :: 0 <= k < |cs| && Truthy(cs[k].commentId) ==>
      PassesEveryStage(cs[k].commentId.value, cs[k].mediaId, k, env)
  }

  /** No change is reported as an error exactly when every change the loops visit passes every stage. */
  lemma RunNoErrors(cs: seq<ChangeRef>, env: Env)
    ensures Run(cs, env).errors == [] <==> AllPass(cs, env)
  {
    if Run(cs, env).errors == [] {
      forall k | 0 <= k < |cs| && Truthy(cs[k].commentId)
        ensures PassesEveryStage(cs[k].commentId.value, cs[k].mediaId, k, env)
      {
        RunKeepsEveryOutcome(cs, env, k);
      }
    } else if AllPass(cs, env) {
      RunAllSaved(cs, env);
    }
  }

  /** When every change passes every stage, the loops report no error. */
  lemma {:induction false} RunAllSaved(cs: seq<ChangeRef>, env: Env)
    requires AllPass(cs, env)
    ensures Run(cs, env).errors == []
  {
    if |cs| > 0 {
      var n := |cs| - 1;
      var prefix := cs[..n];
      assert forall k :: 0 <= k < |prefix| ==> prefix[k] == cs[k];
      RunAllSaved(prefix, env);
      assert prefix + [cs[n]] == cs;
      RunSnoc(prefix, cs[n], env);
    }
  }

  /**
   * A failing change does not stop the others: every change's own outcome, which depends
   * only on that change and its position, is in the batch.
   */
  lemma RunKeepsEveryOutcome(cs: seq<ChangeRef>, env: Env, k: nat)
    requires k < |cs| && Truthy(cs[k].commentId)
    ensures ProcessChange(cs[k].commentId.value, cs[k].mediaId, k, env).Saved? ==>
      ProcessChange(cs[k].commentId.value, cs[k].mediaId, k, env).doc in Run(cs, env).processed
    ensures ProcessChange(cs[k].commentId.value, cs[k].mediaId, k, env).Failed? ==>
      ProcessChange(cs[k].commentId.value, cs[k].mediaId, k, env).err in Run(cs, env).errors
  {
    var os := Outcomes(cs, env);
    assert os[k] == OutcomeAt(cs[k], k, env);
    CollectKeeps(os, k);
  }

  /** Every error names the comment id of a change of the batch. */
  lemma RunErrorsNameTheirChange(cs: seq<ChangeRef>, env: Env, e: ItemError)
    requires e in Run(cs, env).errors
    ensures exists k :: 0 <= k < |cs| && cs[k].commentId == Some(e.commentId)
  {
    var os := Outcomes(cs, env);
    CollectMembers(os);
    var k :| 0 <= k < |os| && os[k] == Some(Failed(e));
    assert os[k] == OutcomeAt(cs[k], k, env);
  }

  /** Every saved record passed Joi's create schema and `save()` validation. */
  lemma RunRecordsStorable(cs: seq<ChangeRef>, env: Env, d: Payload)
    requires d in Run(cs, env).processed
    ensures Storable(d)
    ensures exists k :: 0 <= k < |cs| && OutcomeAt(cs[k], k, env) == Some(Saved(d))
  {
    var os := Outcomes(cs, env);
    CollectMembers(os);
    var k :| 0 <= k < |os| && os[k] == Some(Saved(d));
    assert os[k] == OutcomeAt(cs[k], k, env);
  }

  lemma {:induction false} FlattenAllTruthy(es: seq<seq<ChangeRef>>)
    requires forall i, j :: 0 <= i < |es| && 0 <= j < |es[i]| ==> Truthy(es[i][j].commentId)
    ensures forall k :: 0 <= k < |Flatten(es)| ==> Truthy(Flatten(es)[k].commentId)
  {
    if |es| > 0 {
      var prefix := es[..|es| - 1];
      assert forall i :: 0 <= i < |prefix| ==> prefix[i] == es[i];
      FlattenAllTruthy(prefix);
    }
  }

  lemma {:induction false} TruthyCountAll(cs: seq<ChangeRef>)
    requires forall k :: 0 <= k < |cs| ==> Truthy(cs[k].commentId)
    ensures TruthyCount(cs) == |cs|
  {
    if |cs| > 0 {
      TruthyCountAll(cs[..|cs| - 1]);
    }
  }

  /**
   * After the middleware passed an event, the handler produces one outcome for every
   * change of every entry, and there is at least one.
   */
  lemma ValidatedBatch(body: Json, env: Env)
    requires ValidateEvent(body) == Pass
    ensures |Run(Flatten(Entries(body)), env).processed| + |Run(Flatten(Entries(body)), env).errors| ==
      |Flatten(Entries(body))|
    ensures |Flatten(Entries(body))| > 0
  {
    var es := Entries(body);
    ValidatedEntries(body);
    FlattenAllTruthy(es);
    TruthyCountAll(Flatten(es));
    RunCounts(Flatten(es), env);
  }

  /** A validated POST is never answered 200 with count 0: the 200 answer counts every change. */
  lemma ValidatedPostReply(req: Request, verifyToken: Option<string>, env: Env)
    requires req.verb == "POST" && ValidateRequest(req) == Pass
    ensures StatusOf(ServeReply(req, verifyToken, env)) in {200, 207, 422}
    ensures StatusOf(ServeReply(req, verifyToken, env)) == 200 ==>
      ServeReply(req, verifyToken, env).body ==
        AllProcessed(AllProcessedMessage, |Flatten(Entries(req.body))|)
  {
    ValidatedBatch(req.body, env);
  }

  /**
   * A validated POST is answered 200 exactly when every change passes every stage, and
   * then the answer counts every change.
   */
  lemma AllStagesPassReply(req: Request, verifyToken: Option<string>, env: Env)
    requires req.verb == "POST" && ValidateRequest(req) == Pass
    ensures StatusOf(ServeReply(req, verifyToken, env)) == 200 <==> AllPass(Flatten(Entries(req.body)), env)
    ensures AllPass(Flatten(Entries(req.body)), env) ==>
      ServeReply(req, verifyToken, env) ==
        Reported(200, AllProcessed(AllProcessedMessage, |Flatten(Entries(req.body))|))
  {
    var cs := Flatten(Entries(req.body));
    PostReply(req, verifyToken, env);
    RunNoErrors(cs, env);
    ValidatedBatch(req.body, env);
  }

  /** A validated POST is answered by classifying the batch the loops collect. */
  lemma PostReply(req: Request, verifyToken: Option<string>, env: Env)
    requires req.verb == "POST" && ValidateRequest(req) == Pass
    ensures ServeReply(req, verifyToken, env) == Classify(Run(Flatten(Entries(req.body)), env))
  {
  }

  // ---------------------------------------------------------------------------
  // Properties of one change

  /** Trimming keeps a prefix that starts and ends with a non-space. */
  lemma TrimKeepsPrefix(p: string, x: string)
    requires |p| > 0 && !IsJsWhitespace(p[0]) && !IsJsWhitespace(p[|p| - 1])
    ensures |Trim(p + x)| >= |p| && Trim(p + x)[..|p|] == p
  {
    var s := p + x;
    assert s[0] == p[0];
    assert SkipSpace(s, 0) == 0;
    assert TrimStart(s) == s;
    var j := SkipSpaceBack(s, |s|);
    assert s[|p| - 1] == p[|p| - 1];
    assert j >= |p|;
    assert Trim(s) == s[..j];
    assert s[..j][..|p|] == p;
  }

  /** Joi's create schema accepts a payload only when its media id is a non-empty string. */
  lemma CheckedMediaId(u: string, c: ExternalComment, mediaId: Option<Json>,
                       dateParse: string -> Option<int>, lib: Lib)
    requires Create(CommentPayload(u, c, mediaId, dateParse), lib).Ok?
    ensures mediaId.Some? && mediaId.value.JStr? && mediaId.value.s != ""
  {
    var p := CommentPayload(u, c, mediaId, dateParse);
    CreatedMediaId(p, lib);
    PayloadMediaId(u, c, mediaId, dateParse);
  }

  /** The payload holds the media id exactly as the webhook delivered it. */
  lemma PayloadMediaId(u: string, c: ExternalComment, mediaId: Option<Json>,
                       dateParse: string -> Option<int>)
    ensures Get(CommentPayload(u, c, mediaId, dateParse), MediaId) ==
      if mediaId.Some? then Some(Js(mediaId.value)) else None
  {
  }

  /** Joi's create schema accepts only a non-empty string media id. */
  lemma CreatedMediaId(p: Payload, lib: Lib)
    requires Create(p, lib).Ok?
    ensures StrOf(Get(p, MediaId)).Some? && StrOf(Get(p, MediaId)).value != ""
  {
    CreateOutput(p, lib, MediaId);
    CreateCommentAndMediaId(Get(p, MediaId), lib);
  }

  /** Casting keeps the status a payload holds: the path is not trimmed. */
  lemma CastKeepsStatus(p: Payload, status: string, now: int)
    requires Get(p, Status) == Some(JsText(status))
    ensures Get(Cast(p, now), Status) == Some(JsText(status))
  {
    CastTrimsAndDefaults(p, now, Status);
  }

  /** Casting keeps a username the pattern admits: there is no whitespace to trim. */
  lemma CastKeepsUsername(p: Payload, u: string, now: int)
    requires Matches(UsernamePattern, u)
    requires Get(p, InstagramUsername) == Some(JsText(u))
    ensures Get(Cast(p, now), InstagramUsername) == Some(JsText(u))
  {
    UsernameTrimmed(u);
    CastTrimsAndDefaults(p, now, InstagramUsername);
  }

  /** A username the pattern admits has nothing to trim. */
  lemma UsernameTrimmed(u: string)
    requires Matches(UsernamePattern, u)
    ensures Trim(u) == u
  {
    UsernameIsPlain(u);
    TrimNoWhitespace(u);
  }

  /** Casting keeps the instagram.com prefix of the post URL. */
  lemma CastKeepsPostUrlPrefix(p: Payload, x: string, now: int)
    requires Get(p, PostUrl) == Some(JsText(PostUrlPrefix + x))
    ensures var url := StrOf(Get(Cast(p, now), PostUrl));
      url.Some? && |url.value| >= |PostUrlPrefix| && url.value[..|PostUrlPrefix|] == PostUrlPrefix
  {
    CastTrimsAndDefaults(p, now, PostUrl);
    TrimKeepsPrefix(PostUrlPrefix, x);
  }

  /**
   * What the saved record holds: status "pending", the normalised username, the media id
   * as a non-empty string, and a post URL on instagram.com built from that media id.
   */
  lemma SavedRecordFields(id: Json, mediaId: Option<Json>, k: nat, env: Env)
    requires ProcessChange(id, mediaId, k, env).Saved?
    ensures var d := ProcessChange(id, mediaId, k, env).doc;
      Get(d, Status) == Some(JsText("pending")) &&
      Get(d, InstagramUsername) == Some(JsText(ExtractInstagramUsername(env.fetch(k, id).value.username).value))
    ensures mediaId.Some? && mediaId.value.JStr? && mediaId.value.s != ""
    ensures var d := ProcessChange(id, mediaId, k, env).doc;
      StrOf(Get(d, PostUrl)).Some? && |StrOf(Get(d, PostUrl)).value| >= |PostUrlPrefix| &&
      StrOf(Get(d, PostUrl)).value[..|PostUrlPrefix|] == PostUrlPrefix
  {
    var c := env.fetch(k, id).value;
    var u := ExtractInstagramUsername(c.username).value;
    CheckedMediaId(u, c, mediaId, env.dateParse, env.lib);
    var p := CommentPayload(u, c, mediaId, env.dateParse);
    CastKeepsStatus(p, "pending", env.lib.now);
    CastKeepsUsername(p, u, env.lib.now);
    CastKeepsPostUrlPrefix(p, JsString(mediaId), env.lib.now);
  }

  /** The fetch failure's message is the API error's, behind the handler's prefix. */
  lemma FetchFailureReported(id: Json, mediaId: Option<Json>, k: nat, env: Env)
    requires env.fetch(k, id).Err?
    ensures ProcessChange(id, mediaId, k, env) ==
      Failed(ItemError(id, FetchFailurePrefix + env.fetch(k, id).error))
  {
  }

  /** A username that does not normalise fails the change with the extractor's message. */
  lemma BadUsernameReported(id: Json, mediaId: Option<Json>, k: nat, env: Env, s: string)
    requires env.fetch(k, id).Ok? && env.fetch(k, id).value.username == Some(JStr(s))
    requires !Matches(UsernamePattern, Trim(RemoveFirst(s, '@')))
    ensures ProcessChange(id, mediaId, k, env) == Failed(ItemError(id, InvalidUsernameMessage))
  {
  }

  /** A numeric media id fails Joi's string rule, so such a change is never saved. */
  lemma NumericMediaIdFails(id: Json, n: int, k: nat, env: Env)
    ensures !ProcessChange(id, Some(JNum(n)), k, env).Saved?
  {
    if ProcessChange(id, Some(JNum(n)), k, env).Saved? {
      SavedRecordFields(id, Some(JNum(n)), k, env);
    }
  }

  // ---------------------------------------------------------------------------
  // Properties of the username normaliser

  lemma TrimStartSkipsWhitespace(w: string, x: string)
    requires forall i :: 0 <= i < |w| ==> IsJsWhitespace(w[i])
    ensures TrimStart(w + x) == TrimStart(x)
  {
    var s := w + x;
    var j := |w| + SkipSpace(x, 0);
    forall k | 0 <= k < j
      ensures IsJsWhitespace(s[k])
    {
      if k >= |w| {
        assert s[k] == x[k - |w|];
      }
    }
    assert j < |s| ==> s[j] == x[SkipSpace(x, 0)];
    SkipSpaceUnique(s, 0, j);
    assert s[j..] == x[SkipSpace(x, 0)..];
  }

  lemma {:induction false} TrimEndSkipsWhitespace(x: string, w: string)
    requires forall i :: 0 <= i < |w| ==> IsJsWhitespace(w[i])
    ensures TrimEnd(x + w) == TrimEnd(x)
    decreases |w|
  {
    if |w| > 0 {
      var s := x + w;
      assert s[|s| - 1] == w[|w| - 1];
      assert s[..|s| - 1] == x + w[..|w| - 1];
      assert TrimEnd(s) == TrimEnd(s[..|s| - 1]);
      var rest := w[..|w| - 1];
      assert forall i :: 0 <= i < |rest| ==> rest[i] == w[i];
      TrimEndSkipsWhitespace(x, rest);
    } else {
      assert x + w == x;
    }
  }

  /** The first '@' of `w + rest` is the head of `rest` when `w` has none. */
  lemma IndexOfAfter(w: string, rest: string)
    requires '@' !in w && |rest| > 0 && rest[0] == '@'
    ensures IndexOf(w + rest, '@') == |w|
    ensures RemoveFirst(w + rest, '@') == w + rest[1..]
  {
    var s := w + rest;
    var i := IndexOf(s, '@');
    assert s[|w|] == '@';
    assert i <= |w|;
    assert i >= |w|;
    assert s[..i] == w;
    assert s[i + 1..] == rest[1..];
  }

  /** Whitespace on either side of a word that starts and ends with a non-space trims away. */
  lemma TrimPadded(w1: string, x: string, w2: string)
    requires forall i :: 0 <= i < |w1| ==> IsJsWhitespace(w1[i])
    requires forall i :: 0 <= i < |w2| ==> IsJsWhitespace(w2[i])
    requires |x| > 0 && !IsJsWhitespace(x[0]) && !IsJsWhitespace(x[|x| - 1])
    ensures Trim(w1 + x + w2) == x
  {
    assert w1 + x + w2 == w1 + (x + w2);
    TrimStartSkipsWhitespace(w1, x + w2);
    assert (x + w2)[0] == x[0];
    assert TrimStart(x + w2) == x + w2;
    TrimEndSkipsWhitespace(x, w2);
    assert TrimEnd(x) == x;
  }

  /** A username the pattern admits normalises to itself. */
  lemma ExtractAcceptsValidUsername(u: string)
    requires Matches(UsernamePattern, u)
    ensures ExtractInstagramUsername(Some(JStr(u))) == Ok(u)
  {
    UsernameIsPlain(u);
    assert RemoveFirst(u, '@') == u;
    assert Trim(u) == u;
  }

  lemma WhitespaceHasNoAt(w: string)
    requires forall i :: 0 <= i < |w| ==> IsJsWhitespace(w[i])
    ensures '@' !in w
  {
    forall i | 0 <= i < |w| ensures w[i] != '@' { assert IsJsWhitespace(w[i]); }
  }

  /** `replace('@', '')` removes the '@' that follows an '@'-free prefix. */
  lemma RemoveAtAfter(w: string, x: string, y: string)
    requires '@' !in w
    ensures RemoveFirst(w + "@" + x + y, '@') == w + x + y
  {
    var rest := ['@'] + (x + y);
    assert w + "@" + x + y == w + rest;
    IndexOfAfter(w, rest);
    assert rest[1..] == x + y;
    assert w + (x + y) == w + x + y;
  }

  /** The first '@' and the whitespace around a username are what the normaliser strips. */
  lemma StripAtAndWhitespace(name: string, w1: string, w2: string)
    requires Matches(UsernamePattern, name)
    requires forall i :: 0 <= i < |w1| ==> IsJsWhitespace(w1[i])
    requires forall i :: 0 <= i < |w2| ==> IsJsWhitespace(w2[i])
    ensures Trim(RemoveFirst(w1 + "@" + name + w2, '@')) == name
  {
    WhitespaceHasNoAt(w1);
    RemoveAtAfter(w1, name, w2);
    UsernameIsPlain(name);
    TrimPadded(w1, name, w2);
  }

  /** A valid username with one leading '@' and surrounding whitespace normalises to itself. */
  lemma ExtractStripsAtAndWhitespace(name: string, w1: string, w2: string)
    requires Matches(UsernamePattern, name)
    requires forall i :: 0 <= i < |w1| ==> IsJsWhitespace(w1[i])
    requires forall i :: 0 <= i < |w2| ==> IsJsWhitespace(w2[i])
    ensures ExtractInstagramUsername(Some(JStr(w1 + "@" + name + w2))) == Ok(name)
  {
    StripAtAndWhitespace(name, w1, w2);
  }

  /** A second '@' survives the normaliser's `replace`, and trimming keeps it. */
  lemma SecondAtSurvives(s: string, i: nat, j: nat)
    requires i < j < |s| && s[i] == '@' && s[j] == '@'
    ensures '@' in Trim(RemoveFirst(s, '@'))
  {
    var r := RemoveFirst(s, '@');
    var first := IndexOf(s, '@');
    assert first <= i;
    assert r == s[..first] + s[first + 1..];
    assert r[j - 1] == '@';
    TrimKeepsNonWhitespace(r, j - 1);
  }

  /** The normaliser removes a single '@': a second one stays and the username is refused. */
  lemma ExtractRejectsSecondAt(s: string, i: nat, j: nat)
    requires i < j < |s| && s[i] == '@' && s[j] == '@'
    ensures ExtractInstagramUsername(Some(JStr(s))) == Err(InvalidUsernameMessage)
  {
    SecondAtSurvives(s, i, j);
    var t := Trim(RemoveFirst(s, '@'));
    assert !Matches(UsernamePattern, t) by {
      var k :| 0 <= k < |t| && t[k] == '@';
      assert !UsernameChar(t[k]);
    }
  }

  /** Trimming only removes whitespace: every other character survives. */
  lemma TrimKeepsNonWhitespace(s: string, i: nat)
    requires i < |s| && !IsJsWhitespace(s[i])
    ensures s[i] in Trim(s)
  {
    var a := TrimStart(s);
    var off := |s| - |a|;
    assert i >= off;
    assert a[i - off] == s[i];
    var b := TrimEnd(a);
    assert i - off < |b|;
    assert b[i - off] == s[i];
  }

  /** A username the pattern admits holds neither '@' nor whitespace, nor two-unit characters. */
  lemma UsernameIsPlain(u: string)
    requires Matches(UsernamePattern, u)
    ensures '@' !in u
    ensures forall i :: 0 <= i < |u| ==> !IsJsWhitespace(u[i]) && u[i] as int <= 0xFFFF
  {
    forall i | 0 <= i < |u| ensures u[i] != '@' && !IsJsWhitespace(u[i]) && u[i] as int <= 0xFFFF {
      assert UsernameChar(u[i]);
    }
  }

  /** Normalising a normalised username changes nothing. */
  lemma ExtractIdempotent(raw: Option<Json>)
    requires ExtractInstagramUsername(raw).Ok?
    ensures ExtractInstagramUsername(Some(JStr(ExtractInstagramUsername(raw).value))) ==
      ExtractInstagramUsername(raw)
  {
    ExtractAcceptsValidUsername(ExtractInstagramUsername(raw).value);
  }

  /** A username the pattern admits satisfies the create schema's `instagramUsername` rule. */
  lemma UsernamePassesJoi(u: string, lib: Lib)
    requires Matches(UsernamePattern, u)
    ensures CheckKey(CreateRule(InstagramUsername), Some(JsText(u)), lib).Ok?
  {
    UsernameIsPlain(u);
    assert JsLength(u) == |u|;
    var r := CreateRule(InstagramUsername);
    assert r.StringRule? && r.required && r.valids == [] && !r.only && r.min.None? &&
      r.max.None? && r.pattern == Some(UsernamePattern) && !r.uri;
  }

  /** A normalised username satisfies the create schema's `instagramUsername` rule. */
  lemma ExtractedPassesJoi(raw: Option<Json>, lib: Lib)
    requires ExtractInstagramUsername(raw).Ok?
    ensures CheckKey(CreateRule(InstagramUsername), Some(JsText(ExtractInstagramUsername(raw).value)), lib).Ok?
  {
    UsernamePassesJoi(ExtractInstagramUsername(raw).value, lib);
  }

  /** Proof step for `ExtractExampleInnerAt`: the first '@' of "a@b" is the inner one. */
  lemma InnerAtRemoved()
    ensures RemoveFirst("a@b", '@') == "ab"
  {
    IndexOfAfter("a", "@b");
    assert "a" + "@b" == "a@b";
    assert "a" + "@b"[1..] == "ab";
  }

  /** Proof step for `ExtractExampleInnerAt`: "ab" matches the pattern and has nothing to trim. */
  lemma PlainAb()
    ensures Matches(UsernamePattern, "ab")
    ensures Trim("ab") == "ab"
  {
    assert UsernameChar("ab"[0]) && UsernameChar("ab"[1]);
    UsernameIsPlain("ab");
  }

  /** "a@b" loses its inner '@' and is accepted as "ab". */
  lemma ExtractExampleInnerAt()
    ensures ExtractInstagramUsername(Some(JStr("a@b"))) == Ok("ab")
  {
    InnerAtRemoved();
    PlainAb();
  }

  /** "@@a" keeps its second '@' and is refused. */
  lemma ExtractExampleDoubleAt()
    ensures ExtractInstagramUsername(Some(JStr("@@a"))) == Err(InvalidUsernameMessage)
  {
    ExtractRejectsSecondAt("@@a", 0, 1);
  }
}

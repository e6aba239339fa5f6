# Instagram comment ingestion webhook, modelled in Dafny

The server in this repository takes Instagram comment events on `/instagram/webhook`. This project models the three parts of that route and the comment model it writes through.

- **`validateWebhookRequest`** checks every request first.
  - A GET must carry `hub.mode`, `hub.verify_token` and `hub.challenge`.
  - A POST must be an object whose non-empty `entry` array holds entries with non-empty `changes`. Every change needs a truthy `value.comment_id` and the field `comments`.
  - Any other method gets 405.
- **The GET handshake** echoes the challenge when the mode is `subscribe` and the token equals the configured verify token.
- **The POST handler** walks every change of every entry in order. For each change it:
  - fetches the comment from the Instagram API;
  - normalises the author's username;
  - builds the record payload;
  - validates the payload against Joi's `commentValidation.create`;
  - saves it through the mongoose `Comment` model.

  Each change ends as exactly one saved record or one `{commentId, error}` entry. The handler then answers:
  - 200 when nothing failed;
  - 207 when some changes failed and some were saved;
  - 422 when every change failed.

The project has five modules:

- `JsValues` (`js_values.dfy`): JSON values as Express hands them over, plus the JavaScript pieces the code relies on:
  - truthiness and property access;
  - `trim`;
  - `replace` with a one-character pattern;
  - `length` in UTF-16 code units;
  - the string conversion a template literal makes.
- `CommentRules` (`comment_rules.dfy`): the Joi create and update schemas as a table of field rules, read by one validator that follows Joi's own order:
  - undefined, then required or default;
  - the allow/valid list;
  - `any.only`;
  - `string.base`, then `string.empty`;
  - `min`, `max`, `pattern`, `uri`.

  It reports the first failing key in schema order, each with its custom message or Joi's default one. Keys the schema does not list are refused.
- `CommentSchema` (`comment_schema.dfy`):
  - `new Comment(payload)`, which trims the `trim: true` paths and fills the `receivedDate` and `status` defaults;
  - `save()` validation of the `required` and `enum` paths;
  - the collection as a class `CommentStore`, whose `records` only ever grow by validated documents.
- `Webhook` (`webhook.dfy`): the middleware, the handshake, and the handler's view of a validated body.
- `Ingestion` (`ingestion.dfy`):
  - the per-change pipeline, first as a function and then as a method that writes through the store;
  - the two `for` loops as a method proved against a fold over the changes;
  - the final classification;
  - `Serve`, which chains the middleware, the handshake and the handler as the router does.

Everything outside the process is a parameter:
- the Instagram API, as a function of the change's position in the batch and its comment id;
- the outcome of the database write for each change;
- `Date.parse`;
- Joi's URI grammar and string-to-date conversion;
- the clock.

### Details of the code that the model keeps

- **Which '@' is removed.** `username.replace('@', '')` removes the *first* `@` wherever it is, not only a leading one: `"a@b"` becomes `"ab"` (`ExtractExampleInnerAt`). A second `@` survives, so the name is refused (`ExtractRejectsSecondAt`).
- **Where the username is checked.** `extractInstagramUsername` itself tests `^[a-zA-Z0-9._]{1,30}$` and throws `Invalid Instagram username format`, before Joi sees the payload. A name with disallowed characters (an emoji, say) therefore becomes a per-item error carrying that message, not Joi's pattern message (`BadUsernameReported`).
- **The order of Joi's checks.** Joi checks each key completely, in schema order, and stops at the first failing key (`ValidateKeysFirstError`). Keys the schema does not list are reported only after every listed key passed (`CommentRules.Validate`).
- **The outer `catch`.** The handler's outer `catch` would send `error.message` with status 500, but no statement outside the per-item `try` can throw once the middleware has passed the body (see Left out). A 500 answer therefore comes only from the middleware throwing on a `null` entry or change (`Ingestion.ServeReply`).
- **What a POST stores and reports.** A change that fails is never stored, and a batch without failures answers 200 with `count` equal to the number of changes:
  - `ProcessEntries` states the store grows by exactly the processed records.
  - `ValidatedPostReply` shows that `count` is the number of changes.
  - `AllStagesPassReply` shows that the answer is 200 exactly when every change passes every stage.

## Model

| member | source | states |
|---|---|---|
| JsValues.Trim | server/middleware/instagram.js:199 | `trim()` leaves no whitespace at either end and is no longer than its input |
| JsValues.TrimNoWhitespace | server/middleware/instagram.js:199 | `trim()` leaves a string without whitespace as it is |
| JsValues.RemoveFirst | server/middleware/instagram.js:199 | `replace('@', '')` deletes exactly the first '@' (no '@' before it) and leaves a string without '@' unchanged |
| JsValues.IndexOf | server/middleware/instagram.js:199 | the position `replace` acts on: the first occurrence, or -1 exactly when the character is absent |
| JsValues.TrimSlice | server/middleware/instagram.js:199 | `trim()` keeps the slice of its input that starts where `trimStart` stops, and drops only whitespace before and after it |
| JsValues.TrimIdempotent | server/models/comments.js:5-62 | trimming an already trimmed value changes nothing (used for the trimming setters) |
| JsValues.JsLength | server/models/comments.js:69-70 | Joi's `min`/`max` count UTF-16 code units: between one and two per character, one each for characters of the Basic Multilingual Plane |
| JsValues.JsString | server/middleware/instagram.js:129 | the template literal turns an absent media id into "undefined" and keeps a string media id as it is |
| Webhook.ScanChanges | server/middleware/instagram.js:62-66 | the short-circuit `some` over changes finds nothing exactly when every change is non-null and good. Otherwise it stops at the first change that is `null` or bad, with every earlier change good, and it throws exactly when that change is `null` |
| Webhook.ScanEntries | server/middleware/instagram.js:62-66 | the nested scan finds nothing exactly when every change of every entry is good. Otherwise it stops in the first entry that holds a `null` or bad change, at that entry's first such change, with every earlier entry all good. It throws exactly when that change is `null`, and a finding is a bad non-null change |
| Webhook.ValidateRequest | server/middleware/instagram.js:14-83 | a GET passes exactly when all three hub parameters are truthy, and otherwise gets the missing-parameters rejection; a GET never throws. A POST gets exactly the verdict of the POST checks, so it passes exactly when the body is an object with a non-empty `entry` whose entries and changes are all well formed. Every other method gets `MethodNotAllowed` |
| Webhook.ValidateEvent | server/middleware/instagram.js:31-76 | the POST checks in order. The body check comes first, then the `entry` check. The entry rejection is given exactly when no entry is `null` and some entry has no non-empty `changes`. The change rejection is given exactly when every entry passed and the scan of the changes stops at a bad change that is not `null`. The middleware throws exactly when some entry is `null`, or every entry passed and the scan stops at a `null` change. A passed body is exactly a well-formed event |
| Webhook.RejectionResponse | server/middleware/instagram.js:21-82 | every rejection is answered 400, except a method rejection, which is answered 405 |
| Webhook.Handshake | server/middleware/instagram.js:89-104 | 200 exactly when the mode is "subscribe" and the token equals a configured non-empty verify token, with the challenge as body; 400 exactly when mode or token is falsy; otherwise 403 |
| Webhook.Entries | server/middleware/instagram.js:109-115 | the outer loop visits one list of change references per element of `entry` |
| Webhook.GetMissingParameters | server/middleware/instagram.js:16-27 | a GET lacking any of the three parameters gets the missing-parameters rejection, and only then; that answer is 400 |
| Webhook.HandshakeAfterValidation | server/middleware/instagram.js:89-104 | after the middleware passed a GET, the route's own 400 branch is unreachable. The answer is 200, echoing the challenge, exactly when mode and token match; otherwise it is 403 |
| Webhook.NoTokenNoSubscription | server/middleware/instagram.js:95 | with the verify token unset, no handshake succeeds |
| Webhook.ValidatedEntries | server/middleware/instagram.js:113-116 | after validation there is at least one entry, every entry has at least one change, and every change has a truthy `comment_id`, so the handler's own `if`s skip nothing |
| Webhook.NullEntryThrows | server/middleware/instagram.js:49-51 | a `null` element of `entry` throws in the entry filter, which visits every element |
| Webhook.EntryCheckBeforeChangeCheck | server/middleware/instagram.js:49-66 | with any bad entry present, the answer is the entry rejection (or a throw), never the change rejection |
| CommentRules.CreateSchema | server/models/comments.js:66-155 | the create schema lists all thirteen keys in declaration order, each with its create rule |
| CommentRules.UpdateSchema | server/models/comments.js:157-188 | the update schema lists the eleven keys other than `receivedDate` and `mediaId`, each with its update rule |
| CommentRules.CheckKeyOutcome | server/models/comments.js:66-188 | one key's rule: an absent key fails only a required string rule; a string rule never rewrites a present value; `valid` with `only` admits only the listed strings; any other accepted string is non-empty and within its `min`, `max`, `pattern` and `uri` limits; a present date comes out a valid date, or `null` where allowed. A present date fails, always with `date.base`, exactly when it is a number or Date outside ±8.64e15 ms, an Invalid Date, a string that does not parse to a time in that range, a boolean, array or object, or `null` without `allow(null)`. A key's own error is never "not allowed" |
| CommentRules.Validate | server/models/comments.js:66-188 | `validate` succeeds exactly when every listed key passes and every present key is listed, returning the listed keys' output; a listed key's error comes first, and otherwise the error is "not allowed" for a present unlisted key |
| CommentRules.Create | server/models/comments.js:66-155 | `create` lists every key, so its verdict is the listed keys' check alone |
| CommentRules.Update | server/models/comments.js:157-188 | `update` succeeds exactly when every listed key passes and neither `mediaId` nor `receivedDate` is present; when the listed keys pass but it fails, the error names such a present key as "not allowed" |
| CommentRules.FirstUnknown | server/models/comments.js:66 | finds a present key the object schema does not list, or reports that every present key is listed |
| CommentRules.ValidateKeysOkIff | server/models/comments.js:66-155 | validation succeeds exactly when every listed key passes its own rule |
| CommentRules.ValidateKeysFirstError | server/models/comments.js:66-155 | a failure names the first listed key whose rule fails, with that rule's error code and message; every earlier key passed |
| CommentRules.ValidateKeysOutput | server/models/comments.js:66-155 | on success each listed key holds its rule's output (a default filled in, a date converted) and every other key is unchanged |
| CommentRules.CreateSchemaShape | server/models/comments.js:66-155 | the create schema lists every key exactly once |
| CommentRules.CreateOkIff | server/models/comments.js:66-155 | `create` accepts a record exactly when every key passes its create rule |
| CommentRules.CreateOutput | server/models/comments.js:66-155 | after a successful `create`, each key holds the value its create rule produced |
| CommentRules.CreateFullName | server/models/comments.js:67-75 | fullName passes exactly when it is a string of 2 to 100 code units; "" fails with "Full name is required" |
| CommentRules.CreateInstagramUsername | server/models/comments.js:108-114 | instagramUsername passes exactly when it is a string matching `^[a-zA-Z0-9._]{1,30}$` |
| CommentRules.CreateCommentAndMediaId | server/models/comments.js:116-130 | comment passes exactly when it is a string of 1 to 1000 code units; mediaId exactly when it is a non-empty string; both absent are `any.required` |
| CommentRules.CreatePhoneNumber | server/models/comments.js:77-82 | phoneNumber passes exactly when it is absent or a string of digits, `+`, `-`, whitespace and parentheses (including "") |
| CommentRules.CreateEnums | server/models/comments.js:87-154 | gender passes exactly when it is absent or one of Male, Female, Other, "". Status passes exactly when it is absent or one of pending, replied, archived. An absent status becomes "pending" |
| CommentRules.CreateStatusDefault | server/models/comments.js:149-151 | a record without status comes out of `create` with status "pending" |
| CommentRules.CreateLengthCaps | server/models/comments.js:94-144 | preferredLocation at most 200, sizeOfPlot at most 100, reply at most 1000 code units; each may be absent or "" |
| CommentRules.UpdateSchemaShape | server/models/comments.js:157-188 | the update schema lists each key at most once, and lists a key exactly when it is neither `receivedDate` nor `mediaId` |
| CommentRules.UpdateRequiresNothing | server/models/comments.js:157-188 | `update` requires no key: the empty object passes and comes out empty |
| CommentRules.UpdateRuleOptional | server/models/comments.js:157-188 | no update rule requires its key or supplies a default |
| CommentRules.UpdateSameBounds | server/models/comments.js:157-188 | a value given to `update` passes exactly when it would pass the same key's create rule |
| CommentRules.UpdateStatusAndUnknownKeys | server/models/comments.js:186-188 | `update` gives status no default, and refuses any object carrying `mediaId` or `receivedDate` |
| CommentRules.UpdateRefusesUnlisted | server/models/comments.js:157-188 | any present key the update schema does not list makes `update` fail |
| CommentSchema.Cast | server/models/comments.js:5-62 | `new Comment(m)` keeps the keys of `m` and adds `receivedDate` and `status` |
| CommentSchema.SaveOutcome | server/middleware/instagram.js:137 | `save()` succeeds exactly when the document passes validation and the write succeeds, and then returns the document. An invalid document fails with mongoose's ValidationError message; a valid one whose write fails gets the write's error |
| CommentSchema.CommentStore.Save | server/middleware/instagram.js:136-137 | the store grows by the document exactly when the save succeeds, and keeps every record valid |
| CommentSchema.CommentStore.constructor | server/models/comments.js:191 | an empty collection, trivially valid |
| CommentSchema.StorableIff | server/models/comments.js:5-62 | `save()` validation passes exactly when fullName, instagramUsername, comment and mediaId are non-empty strings, and gender and status are absent or one of their enum values |
| CommentSchema.PathsPassStorable | server/models/comments.js:5-62 | the validated paths passing is enough for the whole document to pass |
| CommentSchema.StorablePathsPass | server/models/comments.js:5-62 | a document that passes has every required path a non-empty string and every enum path in its enum |
| CommentSchema.PathErrorsFree | server/models/comments.js:11-56 | paths without `required` or `enum` never report an error |
| CommentSchema.PathPasses | server/models/comments.js:5-62 | a path that reports nothing meets its `required` and `enum` declarations |
| CommentSchema.StorableHasNoPathError | server/models/comments.js:5-62 | a valid document has no error on any path |
| CommentSchema.PathErrorInSchemaErrors | server/models/comments.js:5-62 | an error of any one path is reported for the whole document |
| CommentSchema.CastTrimsAndDefaults | server/models/comments.js:5-62 | `new Comment` trims the string value of a `trim: true` path, keeps the value of any other path, and fills status "pending" and receivedDate `now` when they are absent |
| CommentSchema.CastValueTrims | server/models/comments.js:5-62 | the setter leaves non-strings and paths without `trim` alone, keeps a string a string, and trims it to a value no longer than before with no whitespace at either end |
| CommentSchema.ValidationMessage | server/models/comments.js:5-62 | mongoose's message starts "Comment validation failed: " followed by the first failed validator's message, and is exactly that for a single failure |
| CommentSchema.CastValueIdempotent | server/models/comments.js:5-62 | a path's setter applied twice gives what it gives once |
| CommentSchema.CastValueFixed | server/models/comments.js:5-62 | every value of a cast document is a fixed point of its path's setter |
| CommentSchema.CastIdempotent | server/models/comments.js:5-62 | casting a cast document changes nothing |
| CommentSchema.TrimAllWhitespace | server/models/comments.js:36-40 | a whitespace-only string trims to "" |
| CommentSchema.BlankCommentPassesJoiFailsSave | server/models/comments.js:116-124 | a whitespace-only comment of 1 to 1000 code units passes Joi `create`, yet once mongoose trims it `save()` reports it as a missing required path |
| CommentSchema.BlankCommentPassesJoi | server/models/comments.js:116-124 | Joi's comment rule accepts any non-empty string within the length bounds, blank or not |
| CommentSchema.BlankCommentFailsSave | server/models/comments.js:36-40 | a comment that trims to "" is a `required` error after casting |
| CommentSchema.EmptyGenderPassesJoiFailsSave | server/models/comments.js:87-92 | Joi allows gender "", but the mongoose enum (comments.js lines 19-22) does not list it, so `save()` refuses it |
| Ingestion.ExtractInstagramUsername | server/middleware/instagram.js:197-207 | an accepted name is the trimmed input with its first '@' removed and matches the username pattern. A string input that fails gets "Invalid Instagram username format". A non-string input is a TypeError. A string input is accepted exactly when removing its first '@' and trimming leaves a name the pattern admits |
| Ingestion.NewDate | server/middleware/instagram.js:127 | `new Date(t)` of a number is valid exactly within ±8.64e15 ms; an undefined timestamp is an Invalid Date; any valid result lies within that range |
| Ingestion.CommentPayload | server/middleware/instagram.js:122-130 | the payload has exactly these keys: the normalised username, a date, status "pending", postUrl `https://www.instagram.com/p/` + the media id, and comment, mediaId and fullName when each is defined. fullName is `from.full_name` when that is truthy, else the raw username |
| Ingestion.ProcessChange | server/middleware/instagram.js:117-146 | one change's try block. A failure carries the change's `comment_id` and the failing stage's message: the fetch error with its prefix, the username error, Joi's message, mongoose's ValidationError message, or the write's error. A record is saved exactly when every stage goes through, and it is the cast payload, which passes `save()` validation |
| Ingestion.ProcessComment | server/middleware/instagram.js:117-146 | one change's try block: the outcome is the pipeline's, and the store grows by the record exactly when the outcome is a save |
| Ingestion.OutcomeAt | server/middleware/instagram.js:116 | a change yields an outcome exactly when its `comment_id` is truthy |
| Ingestion.Outcomes | server/middleware/instagram.js:113-150 | one entry per change visited |
| Ingestion.VisitChange | server/middleware/instagram.js:116-147 | one pass of the inner loop pushes that change's outcome onto `processedComments` or `errors`, and the store grows by what was pushed onto `processedComments` |
| Ingestion.VisitEntry | server/middleware/instagram.js:115-148 | the inner loop over one entry's changes leaves the fold of everything visited so far followed by that entry's changes, and the store grows by exactly what was pushed onto `processedComments` |
| Ingestion.ProcessEntries | server/middleware/instagram.js:113-150 | the two loops leave exactly the fold of the per-change outcomes in visiting order, and the store grows by exactly the processed records, in order |
| Ingestion.RunSnoc | server/middleware/instagram.js:115-147 | visiting one more change pushes exactly that change's outcome |
| Ingestion.Classify | server/middleware/instagram.js:152-170 | 200 exactly when there are no errors, with the count of processed records; 207 exactly when both lists are non-empty, with both lists; 422 exactly when all failed, with the errors |
| Ingestion.ServeReply | server/middleware/instagram.js:86-179 | the answer's status is one of 200, 207, 400, 403, 405, 422 and 500; a batch report answers exactly a POST the middleware passed; a 500 comes only from the middleware throwing on a POST; any method other than GET and POST gets 405 |
| Ingestion.Serve | server/middleware/instagram.js:86-179 | a request's answer is the middleware's rejection, a 500 after the middleware throws, the handshake, or the classified batch; the store grows by the batch's records only for a validated POST |
| Ingestion.CollectCounts | server/middleware/instagram.js:138-145 | every outcome lands in exactly one of the two lists |
| Ingestion.CollectMembers | server/middleware/instagram.js:138-145 | every record or error in the lists is one of the outcomes |
| Ingestion.CollectKeeps | server/middleware/instagram.js:117-146 | every outcome is in its list, whatever came before it |
| Ingestion.OutcomesPresent | server/middleware/instagram.js:116 | the number of outcomes is the number of changes with a truthy `comment_id` |
| Ingestion.RunCounts | server/middleware/instagram.js:110-150 | the two lists together have exactly one entry per change with a truthy `comment_id` |
| Ingestion.RunNoErrors | server/middleware/instagram.js:110-150 | `errors` stays empty exactly when every change with a truthy `comment_id` passes every stage |
| Ingestion.RunAllSaved | server/middleware/instagram.js:110-150 | when every such change passes every stage, `errors` stays empty |
| Ingestion.RunKeepsEveryOutcome | server/middleware/instagram.js:117-146 | a failing change does not stop later ones: each change's own outcome, which depends only on that change and its position, is in the batch |
| Ingestion.RunErrorsNameTheirChange | server/middleware/instagram.js:140-145 | every error in the batch names the comment id of one of its changes |
| Ingestion.RunRecordsStorable | server/middleware/instagram.js:132-138 | every processed record is a saved outcome of one of the changes and passed `save()` validation |
| Ingestion.FlattenAllTruthy | server/middleware/instagram.js:113-116 | if every change of every entry has a truthy `comment_id`, so does every change visited |
| Ingestion.TruthyCountAll | server/middleware/instagram.js:116 | when every `comment_id` is truthy, every change is counted |
| Ingestion.ValidatedBatch | server/middleware/instagram.js:107-150 | after the middleware passed a body, there is at least one change, and the two lists together have exactly one entry per change |
| Ingestion.ValidatedPostReply | server/middleware/instagram.js:152-170 | a validated POST is answered 200, 207 or 422, and a 200 counts every change of the batch |
| Ingestion.AllStagesPassReply | server/middleware/instagram.js:110-170 | a validated POST is answered 200 exactly when every change passes every stage, and then the body is the success message with `count` equal to the number of changes |
| Ingestion.CheckedMediaId | server/middleware/instagram.js:125-133 | Joi `create` accepts the payload only when the change's media id is a non-empty string |
| Ingestion.CastKeepsStatus | server/middleware/instagram.js:128-136 | casting keeps the payload's status |
| Ingestion.CastKeepsUsername | server/middleware/instagram.js:123-136 | casting keeps a username that matches the pattern |
| Ingestion.UsernameTrimmed | server/middleware/instagram.js:197-207 | a username that matches the pattern has nothing for `trim()` to remove |
| Ingestion.CastKeepsPostUrlPrefix | server/middleware/instagram.js:129-136 | casting keeps the post URL's `https://www.instagram.com/p/` prefix |
| Ingestion.TrimKeepsPrefix | server/middleware/instagram.js:129 | trimming keeps a prefix that starts and ends with a non-space |
| Ingestion.SavedRecordFields | server/middleware/instagram.js:122-138 | a saved record has status "pending", the normalised username, a media id that is a non-empty string, and a post URL starting with `https://www.instagram.com/p/` |
| Ingestion.FetchFailureReported | server/middleware/instagram.js:190-193 | a failed fetch becomes that change's error, "Failed to fetch comment data: " followed by the API's message |
| Ingestion.BadUsernameReported | server/middleware/instagram.js:202-204 | a username that does not normalise fails its change with "Invalid Instagram username format" |
| Ingestion.NumericMediaIdFails | server/middleware/instagram.js:125-133 | a change whose media id is a number is never saved |
| Ingestion.ExtractAcceptsValidUsername | server/middleware/instagram.js:197-207 | a name that already matches the pattern normalises to itself |
| Ingestion.StripAtAndWhitespace | server/middleware/instagram.js:199 | a valid name with an '@' in front, and whitespace around both, cleans to the name |
| Ingestion.ExtractStripsAtAndWhitespace | server/middleware/instagram.js:197-207 | whitespace, then '@', then a valid name, then whitespace, normalises to the name (for instance "@Jane.Doe " to "Jane.Doe") |
| Ingestion.SecondAtSurvives | server/middleware/instagram.js:199 | with two '@', one is still there after `replace` and `trim` |
| Ingestion.ExtractRejectsSecondAt | server/middleware/instagram.js:197-207 | any string with two '@' is refused with "Invalid Instagram username format" |
| Ingestion.TrimKeepsNonWhitespace | server/middleware/instagram.js:199 | trimming removes only whitespace |
| Ingestion.UsernameIsPlain | server/middleware/instagram.js:202 | a name the pattern admits has no '@', no whitespace and no two-unit character |
| Ingestion.ExtractIdempotent | server/middleware/instagram.js:197-207 | normalising a normalised username gives the same result |
| Ingestion.UsernamePassesJoi | server/models/comments.js:108-114 | a name the extractor's pattern admits passes Joi's instagramUsername rule |
| Ingestion.ExtractedPassesJoi | server/middleware/instagram.js:197-207 | every normalised username passes Joi's instagramUsername rule, so that rule never fails a change |
| Ingestion.ExtractExampleInnerAt | server/middleware/instagram.js:199 | "a@b" normalises to "ab": the '@' removed need not be leading |
| Ingestion.ExtractExampleDoubleAt | server/middleware/instagram.js:197-207 | "@@a" is refused: only one '@' is removed |

## Left out

- Numbers are integers. JavaScript floating point (fractional timestamps, `NaN`) is not modelled.
- `fetchCommentData` is a parameter of the model:
  - its device generation and login against the private Instagram API;
  - process-wide client state;
  - network failures.

  The model captures only its success value or its error message and the prefix the wrapper adds.
- The order of the asynchronous calls, concurrency between requests, and cancellation are not modelled. The model visits changes strictly one after another, as the `await`s make the code do.
- `console.log` and `console.error` are not modelled. They are I/O with no effect on the answer.
- Mongoose's casting of non-string values to String or Date, with its `CastError`, is not modelled. The model applies the `trim` setter to string values only and keeps other values as they are.
- Mongoose validates the required paths before the others; the model lists the errors in schema order. The set of errors is the same, and the first error (which leads the ValidationError message) is the same when every failing path is required. That holds on every document the webhook builds, since it sets status "pending" and no gender, and only the required paths and those two enums can fail. For `{gender: "", comment: " "}`, mongoose names `comment` first and the model names `gender`.
- The `_id` and `__v` fields mongoose adds, and the JSON serialisation of saved documents in the 207 body, are not modelled.
- Joi's URI grammar, its string-to-date conversion and `Date.now` are parameters (`Lib`). So are `Date.parse` for `new Date(string)` and the database write.
- CommentRules.FirstUnknown: when several present keys are unknown, the one reported is the first in schema declaration order, not in the object's own key order (a payload is a map, which keeps no insertion order). For `{mediaId, receivedDate}` against the update schema, Joi would name `mediaId` and the model names `receivedDate`. That a present unknown key fails the validation is modelled exactly, but only among the keys a payload can hold (see `CommentRules.Update` below).
- CommentRules.Update: a payload is a map over the thirteen schema keys, so it cannot hold a key the schema does not know at all. Joi's `update` refuses any such key with '"foo" is not allowed'; the model has no counterpart for it and refuses only `mediaId` and `receivedDate` as unlisted keys. The webhook only builds payloads from schema keys, so its path is unaffected.
- CommentRules.Message: Joi's default messages are modelled for the error codes these schemas can produce. Other message details (such as label rules for nested keys) are not.
- The middleware runs twice on POST: once through `router.use` and once on the route. It has no side effects, so the model runs it once.
- The handler's outer `catch` (500 with `error.message`) is unreachable once the middleware has passed the body. Every statement that could throw sits inside the per-change `try`, so the model has no path to it.
- A throw inside the middleware (a `null` entry or change) is modelled as the application error handler's 500 "Something broke!" (server/index.js lines 27-30). Express's own handling around it is not modelled.
- JsValues.JsString: an object with its own `toString` key, or an array holding one, is converted to "[object Object]" or joined as if it had none. In JavaScript, the conversion then throws `TypeError: Cannot convert object to primitive value`. This happens in the post URL template (server/middleware/instagram.js:129), and in `new Date(timestamp)` (line 127), inside the per-change `try`. That change's error message then differs from the model's, which goes on to the Joi check with the converted string.
- The V8 `TypeError` texts for a non-string username follow V8's wording. Other engines word them differently.
- `res.send(challenge)` is modelled as sending the challenge value. The content type Express chooses is not modelled.
- Other routes of the server are not part of this model: users, auth, the `/api/comments` router, and the database connection in server/database/db.js.
- A proof about the literal `"@Jane.Doe "` is not included, because unrolling the string functions on that literal is too costly. `Ingestion.ExtractStripsAtAndWhitespace` proves the general statement, of which it is an instance.

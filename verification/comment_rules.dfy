/**
 * The Joi schemas `commentValidation.create` and `commentValidation.update` of the
 * comment model, as a declarative table of field rules consulted by one generic
 * validator that follows Joi's own evaluation order:
 *   - an undefined value is refused when required, otherwise takes the default if any;
 *   - a value in the allow/valid list passes at once (`.allow('')`, `.valid(...)`);
 *   - with `.valid(...)` anything else is refused (`any.only`);
 *   - a non-string is refused (`string.base`), then "" (`string.empty`);
 *   - then `min`, `max`, `pattern`, `uri`, in that order.
 * Keys are checked in schema order and the first failure is reported (Joi's default
 * `abortEarly`); keys the schema does not list are refused after all listed ones.
 */
module CommentRules {
  import opened JsValues

  /** The keys of a comment record, in the order the schemas declare them. */
  datatype Field =
    | FullName | PhoneNumber | ReceivedDate | Gender | PreferredLocation | SizeOfPlot
    | InstagramUsername | Comment | MediaId | PostUrl | Reply | RepliedAt | Status

  function Key(f: Field): string
  {
    match f
    case FullName => "fullName"
    case PhoneNumber => "phoneNumber"
    case ReceivedDate => "receivedDate"
    case Gender => "gender"
    case PreferredLocation => "preferredLocation"
    case SizeOfPlot => "sizeOfPlot"
    case InstagramUsername => "instagramUsername"
    case Comment => "comment"
    case MediaId => "mediaId"
    case PostUrl => "postUrl"
    case Reply => "reply"
    case RepliedAt => "repliedAt"
    case Status => "status"
  }

  /** Joi's error label for a key: the key in double quotes. */
  function Label(f: Field): string
  {
    "\"" + Key(f) + "\""
  }

  /** A value a record key may hold: a JSON value or a JavaScript Date (None: an Invalid Date). */
  datatype Value = Js(json: Json) | DateObj(time: Option<int>)

  /** A record under validation; an absent key is `undefined`. */
  type Payload = map<Field, Value>

  function Get(m: Payload, f: Field): Option<Value>
  {
    if f in m then Some(m[f]) else None
  }

  /** The string a value holds, if it is a string. */
  function StrOf(v: Option<Value>): Option<string>
  {
    if v.Some? && v.value.Js? && v.value.json.JStr? then Some(v.value.json.s) else None
  }

  function JsText(s: string): Value
  {
    Js(JStr(s))
  }

  /**
   * Library behaviour the schemas rely on but that is not modelled here: Joi's `.uri()`
   * grammar, Joi's string-to-date conversion, and the clock `Date.now` (milliseconds).
   */
  datatype Lib = Lib(uriOk: string -> bool, parseDate: string -> Option<int>, now: int)

  predicate UsernameChar(c: char)
  {
    ('a' <= c <= 'z') || ('A' <= c <= 'Z') || ('0' <= c <= '9') || c == '.' || c == '_'
  }

  predicate PhoneChar(c: char)
  {
    ('0' <= c <= '9') || c == '+' || c == '-' || c == '(' || c == ')' || IsJsWhitespace(c)
  }

  datatype Pattern = UsernamePattern | PhonePattern

  /**
   * `/^[a-zA-Z0-9._]{1,30}$/` and `/^[0-9+\-\s()]*$/`. Every character the username class
   * admits is one UTF-16 code unit, so counting characters counts code units.
   */
  predicate Matches(p: Pattern, s: string)
  {
    match p
    case UsernamePattern => 1 <= |s| <= 30 && forall i :: 0 <= i < |s| ==> UsernameChar(s[i])
    case PhonePattern => forall i :: 0 <= i < |s| ==> PhoneChar(s[i])
  }

  function PatternSource(p: Pattern): string
  {
    match p
    case UsernamePattern => "/^[a-zA-Z0-9._]{1,30}$/"
    case PhonePattern => "/^[0-9+\\-\\s()]*$/"
  }

  /** Joi error codes the schemas can produce. */
  datatype ErrorKind =
    | AnyRequired | AnyOnly | StringBase | StringEmpty | StringMin | StringMax
    | StringPattern | StringUri | DateBase | ObjectUnknown

  /**
   * One key's rule: a `Joi.string()` chain or a `Joi.date()` chain. `messages` says whether
   * the chain ends in the create schema's `.messages({...})` for its key (CustomMessage).
   */
  datatype Rule =
    | StringRule(required: bool, valids: seq<string>, only: bool, min: Option<nat>, max: Option<nat>,
                 pattern: Option<Pattern>, uri: bool, defaultValue: Option<string>, messages: bool)
    | DateRule(allowNull: bool, defaultNow: bool)

  /** `Joi.string()` with no further rules. */
  const JoiString: Rule := StringRule(false, [], false, None, None, None, false, None, false)

  /** The rule `commentValidation.create` gives each key. */
  function CreateRule(f: Field): Rule
  {
    match f
    case FullName => JoiString.(required := true, min := Some(2), max := Some(100), messages := true)
    case PhoneNumber => JoiString.(pattern := Some(PhonePattern), valids := [""], messages := true)
    case ReceivedDate => DateRule(false, true)
    case Gender => JoiString.(valids := ["Male", "Female", "Other", ""], only := true, messages := true)
    case PreferredLocation => JoiString.(max := Some(200), valids := [""], messages := true)
    case SizeOfPlot => JoiString.(max := Some(100), valids := [""], messages := true)
    case InstagramUsername => JoiString.(required := true, pattern := Some(UsernamePattern), messages := true)
    case Comment => JoiString.(required := true, min := Some(1), max := Some(1000), messages := true)
    case MediaId => JoiString.(required := true, messages := true)
    case PostUrl => JoiString.(uri := true, valids := [""], messages := true)
    case Reply => JoiString.(valids := [""], max := Some(1000), messages := true)
    case RepliedAt => DateRule(true, false)
    case Status =>
      JoiString.(valids := ["pending", "replied", "archived"], only := true, defaultValue := Some("pending"),
                 messages := true)
  }

  /** The create schema's `.messages({...})`: the custom text for a key's error code, if any. */
  function CustomMessage(f: Field, kind: ErrorKind): Option<string>
  {
    match (f, kind)
    case (FullName, StringEmpty) => Some("Full name is required")
    case (FullName, StringMin) => Some("Full name must be at least 2 characters long")
    case (FullName, StringMax) => Some("Full name cannot exceed 100 characters")
    case (PhoneNumber, StringPattern) => Some("Please provide a valid phone number")
    case (Gender, AnyOnly) => Some("Gender must be either Male, Female, or Other")
    case (PreferredLocation, StringMax) => Some("Preferred location cannot exceed 200 characters")
    case (SizeOfPlot, StringMax) => Some("Size of plot cannot exceed 100 characters")
    case (InstagramUsername, StringEmpty) => Some("Instagram username is required")
    case (InstagramUsername, StringPattern) => Some("Please provide a valid Instagram username")
    case (Comment, StringEmpty) => Some("Comment is required")
    case (Comment, StringMin) => Some("Comment cannot be empty")
    case (Comment, StringMax) => Some("Comment cannot exceed 1000 characters")
    case (MediaId, StringEmpty) => Some("Media ID is required")
    case (PostUrl, StringUri) => Some("Please provide a valid URL")
    case (Reply, StringMax) => Some("Reply cannot exceed 1000 characters")
    case (Status, AnyOnly) => Some("Status must be either pending, replied, or archived")
    case _ => None
  }

  /** The keys `commentValidation.update` lists: all but `receivedDate` and `mediaId`. */
  predicate InUpdate(f: Field)
  {
    f != ReceivedDate && f != MediaId
  }

  /** The rule `commentValidation.update` gives each key it lists. */
  function UpdateRule(f: Field): Rule
    requires InUpdate(f)
  {
    match f
    case FullName => JoiString.(min := Some(2), max := Some(100))
    case PhoneNumber => JoiString.(pattern := Some(PhonePattern), valids := [""])
    case Gender => JoiString.(valids := ["Male", "Female", "Other", ""], only := true)
    case PreferredLocation => JoiString.(max := Some(200), valids := [""])
    case SizeOfPlot => JoiString.(max := Some(100), valids := [""])
    case InstagramUsername => JoiString.(pattern := Some(UsernamePattern))
    case Comment => JoiString.(min := Some(1), max := Some(1000))
    case PostUrl => JoiString.(uri := true, valids := [""])
    case Reply => JoiString.(valids := [""], max := Some(1000))
    case RepliedAt => DateRule(true, false)
    case Status => JoiString.(valids := ["pending", "replied", "archived"], only := true)
  }

  type Schema = seq<(Field, Rule)>

  function AllFields(): seq<Field>
  {
    [FullName, PhoneNumber, ReceivedDate, Gender, PreferredLocation, SizeOfPlot,
     InstagramUsername, Comment, MediaId, PostUrl, Reply, RepliedAt, Status]
  }

  /** The create schema lists every key, in declaration order. */
  function CreateSchema(): (s: Schema)
    ensures |s| == |AllFields()|
    ensures forall i :: 0 <= i < |s| ==> s[i] == (AllFields()[i], CreateRule(AllFields()[i]))
  {
    var fs := AllFields();
    seq(|fs|, i requires 0 <= i < |fs| => (fs[i], CreateRule(fs[i])))
  }

  /** The update keys in declaration order. */
  function UpdateFields(): seq<Field>
  {
    [FullName, PhoneNumber, Gender, PreferredLocation, SizeOfPlot,
     InstagramUsername, Comment, PostUrl, Reply, RepliedAt, Status]
  }

  function UpdateSchema(): (s: Schema)
    ensures |s| == |UpdateFields()|
    ensures forall i :: 0 <= i < |s| ==>
      InUpdate(s[i].0) && s[i] == (UpdateFields()[i], UpdateRule(UpdateFields()[i]))
  {
    var fs := UpdateFields();
    seq(|fs|, i requires 0 <= i < |fs| => (fs[i], UpdateRule(fs[i])))
  }

  predicate Listed(s: Schema, f: Field)
  {
    exists i :: 0 <= i < |s| && s[i].0 == f
  }

  /** The result of one key's rule: the validated value (None: stays undefined) or an error code. */
  function CheckKey(r: Rule, v: Option<Value>, lib: Lib): Result<Option<Value>, ErrorKind>
  {
    match r
    case StringRule(required, valids, only, min, max, pattern, uri, defaultValue, _) =>
      if v.None? then
        if required then Err(AnyRequired)
        else if defaultValue.Some? then Ok(Some(JsText(defaultValue.value)))
        else Ok(None)
      else if StrOf(v).Some? && StrOf(v).value in valids then Ok(v)
      else if only then Err(AnyOnly)
      else if StrOf(v).None? then Err(StringBase)
      else
        var s := StrOf(v).value;
        if s == "" then Err(StringEmpty)
        else if min.Some? && JsLength(s) < min.value then Err(StringMin)
        else if max.Some? && JsLength(s) > max.value then Err(StringMax)
        else if pattern.Some? && !Matches(pattern.value, s) then Err(StringPattern)
        else if uri && !lib.uriOk(s) then Err(StringUri)
        else Ok(v)
    case DateRule(allowNull, defaultNow) =>
      if v.None? then
        if defaultNow then Ok(Some(Js(JNum(lib.now)))) else Ok(None)
      else
        match v.value
        case DateObj(t) => if t.Some? && ValidTime(t.value) then Ok(v) else Err(DateBase)
        case Js(JNull) => if allowNull then Ok(v) else Err(DateBase)
        case Js(JNum(n)) => if ValidTime(n) then Ok(Some(DateObj(Some(n)))) else Err(DateBase)
        case Js(JStr(s)) =>
          var t := lib.parseDate(s);
          if t.Some? && ValidTime(t.value) then Ok(Some(DateObj(t))) else Err(DateBase)
        case Js(_) => Err(DateBase)
  }

  /** What one key's rule promises about its outcome. */
  lemma CheckKeyOutcome(r: Rule, v: Option<Value>, lib: Lib)
    // an absent key fails only a required string rule
    ensures v.None? ==> (CheckKey(r, v, lib).Ok? <==> !(r.StringRule? && r.required))
    // a string rule never rewrites a value that is present
    ensures var out := CheckKey(r, v, lib);
      r.StringRule? && v.Some? && out.Ok? ==> out.value == v
    // `valid(...)` with `only` admits nothing but the listed strings
    ensures var out := CheckKey(r, v, lib);
      r.StringRule? && r.only && v.Some? && out.Ok? ==> StrOf(v).Some? && StrOf(v).value in r.valids
    // a present value that is not a listed string passed every string check
    ensures var out, t := CheckKey(r, v, lib), StrOf(v);
      r.StringRule? && v.Some? && out.Ok? && !(t.Some? && t.value in r.valids) ==>
        t.Some? && t.value != "" &&
        (r.min.Some? ==> JsLength(t.value) >= r.min.value) &&
        (r.max.Some? ==> JsLength(t.value) <= r.max.value) &&
        (r.pattern.Some? ==> Matches(r.pattern.value, t.value)) &&
        (r.uri ==> lib.uriOk(t.value))
    // a present date is converted to a valid date, or stays `null` where `allow(null)` says so
    ensures var out := CheckKey(r, v, lib);
      r.DateRule? && v.Some? && out.Ok? ==>
        out.value.Some? && (out.value.value == Js(JNull) ==> r.allowNull) &&
        (out.value.value != Js(JNull) ==>
          out.value.value.DateObj? && out.value.value.time.Some? && ValidTime(out.value.value.time.value))
    // when a present date fails: a number or Date out of range, an Invalid Date, an unparsable
    // string, a boolean, array or object, and `null` unless `allow(null)`
    ensures r.DateRule? && v.Some? && v.value.Js? && v.value.json.JNum? ==>
      (CheckKey(r, v, lib).Ok? <==> ValidTime(v.value.json.n))
    ensures r.DateRule? && v.Some? && v.value.DateObj? ==>
      (CheckKey(r, v, lib).Ok? <==> v.value.time.Some? && ValidTime(v.value.time.value))
    ensures r.DateRule? && v.Some? && v.value.Js? && v.value.json.JStr? ==>
      (CheckKey(r, v, lib).Ok? <==>
        lib.parseDate(v.value.json.s).Some? && ValidTime(lib.parseDate(v.value.json.s).value))
    ensures r.DateRule? && v == Some(Js(JNull)) ==> (CheckKey(r, v, lib).Ok? <==> r.allowNull)
    ensures r.DateRule? && v.Some? && v.value.Js? && (v.value.json.JBool? || v.value.json.JArr? || v.value.json.JObj?) ==>
      CheckKey(r, v, lib) == Err(DateBase)
    ensures r.DateRule? && v.Some? && CheckKey(r, v, lib).Err? ==> CheckKey(r, v, lib).error == DateBase
    // an unknown key is the object's error, never a key's own
    ensures CheckKey(r, v, lib).Err? ==> CheckKey(r, v, lib).error != ObjectUnknown
  {
  }

  /** A failed validation: the key, the Joi error code and the error's message. */
  datatype JoiError = JoiError(field: Field, kind: ErrorKind, message: string)

  /** Joi's built-in message for an error code, used when the rule gives no custom one. */
  function DefaultMessage(f: Field, r: Rule, kind: ErrorKind, v: Option<Value>): string
  {
    var name := Label(f);
    match kind
    case AnyRequired => name + " is required"
    case AnyOnly => name + " must be one of [" + Join(if r.StringRule? then r.valids else [], ", ") + "]"
    case StringBase => name + " must be a string"
    case StringEmpty => name + " is not allowed to be empty"
    case StringMin =>
      name + " length must be at least " +
      IntString(if r.StringRule? && r.min.Some? then r.min.value else 0) + " characters long"
    case StringMax =>
      name + " length must be less than or equal to " +
      IntString(if r.StringRule? && r.max.Some? then r.max.value else 0) + " characters long"
    case StringPattern =>
      name + " with value \"" + (if StrOf(v).Some? then StrOf(v).value else "") +
      "\" fails to match the required pattern: " +
      (if r.StringRule? && r.pattern.Some? then PatternSource(r.pattern.value) else "")
    case StringUri => name + " must be a valid uri"
    case DateBase => name + " must be a valid date"
    case ObjectUnknown => name + " is not allowed"
  }

  function Message(f: Field, r: Rule, kind: ErrorKind, v: Option<Value>): string
  {
    if r.StringRule? && r.messages && CustomMessage(f, kind).Some? then CustomMessage(f, kind).value
    else DefaultMessage(f, r, kind, v)
  }

  /** Joi's output: the validated value where defined, the key removed where undefined. */
  function Put(m: Payload, f: Field, v: Option<Value>): Payload
  {
    if v.Some? then m[f := v.value] else m - {f}
  }

  /** Checks the listed keys in order against the input `m`; the first failure wins. */
  function ValidateKeys(s: Schema, m: Payload, lib: Lib): Result<Payload, JoiError>
  {
    if |s| == 0 then Ok(m)
    else
      var (f, r) := s[0];
      match CheckKey(r, Get(m, f), lib)
      case Err(k) => Err(JoiError(f, k, Message(f, r, k, Get(m, f))))
      case Ok(v) =>
        match ValidateKeys(s[1..], m, lib)
        case Err(e) => Err(e)
        case Ok(out) => Ok(Put(out, f, v))
  }

  /** The first present key, among `fs`, that the schema does not list. */
  function FirstUnknown(s: Schema, m: Payload, fs: seq<Field>): (r: Option<Field>)
    ensures r.Some? ==> r.value in m && r.value in fs && !Listed(s, r.value)
    ensures r.None? ==> forall i :: 0 <= i < |fs| && fs[i] in m ==> Listed(s, fs[i])
  {
    if |fs| == 0 then None
    else if fs[0] in m && !Listed(s, fs[0]) then Some(fs[0])
    else FirstUnknown(s, m, fs[1..])
  }

  /** `schema.validate(m)`: listed keys first, then unknown keys. */
  function Validate(s: Schema, m: Payload, lib: Lib): (r: Result<Payload, JoiError>)
    ensures r.Ok? <==> ValidateKeys(s, m, lib).Ok? && forall f :: f in m ==> Listed(s, f)
    ensures r.Ok? ==> r.value == ValidateKeys(s, m, lib).value
    // the listed keys' errors come before any unknown key's
    ensures ValidateKeys(s, m, lib).Err? ==> r == ValidateKeys(s, m, lib)
    ensures ValidateKeys(s, m, lib).Ok? && r.Err? ==>
      r.error.kind == ObjectUnknown && r.error.field in m && !Listed(s, r.error.field)
  {
    match ValidateKeys(s, m, lib)
    case Err(e) => Err(e)
    case Ok(out) =>
      match FirstUnknown(s, m, AllFields())
      case Some(f) => Err(JoiError(f, ObjectUnknown, Label(f) + " is not allowed"))
      case None =>
        NoUnknownKey(s, m);
        Ok(out)
  }

  /** No unknown key among all thirteen means every present key is listed. */
  lemma NoUnknownKey(s: Schema, m: Payload)
    requires FirstUnknown(s, m, AllFields()).None?
    ensures forall f :: f in m ==> Listed(s, f)
  {
    var fs := AllFields();
    forall f | f in m
      ensures Listed(s, f)
    {
      AllFieldsComplete(f);
      var i :| 0 <= i < |fs| && fs[i] == f;
    }
  }

  /** `commentValidation.create`: it lists every key, so no key is ever unknown to it. */
  function Create(m: Payload, lib: Lib): (r: Result<Payload, JoiError>)
    ensures r == ValidateKeys(CreateSchema(), m, lib)
  {
    CreateSchemaShape();
    Validate(CreateSchema(), m, lib)
  }

  /** `commentValidation.update`: `mediaId` and `receivedDate` are unknown to it. */
  function Update(m: Payload, lib: Lib): (r: Result<Payload, JoiError>)
    ensures r.Ok? <==> ValidateKeys(UpdateSchema(), m, lib).Ok? && forall f :: f in m ==> InUpdate(f)
    ensures ValidateKeys(UpdateSchema(), m, lib).Ok? && r.Err? ==>
      r.error.kind == ObjectUnknown && r.error.field in m && !InUpdate(r.error.field)
  {
    UpdateSchemaShape();
    Validate(UpdateSchema(), m, lib)
  }

  // ---------------------------------------------------------------------------
  // The generic validator against the table

  /** Validation succeeds exactly when every listed key passes its own rule. */
  lemma {:induction false} ValidateKeysOkIff(s: Schema, m: Payload, lib: Lib)
    ensures ValidateKeys(s, m, lib).Ok? <==>
      forall i :: 0 <= i < |s| ==> CheckKey(s[i].1, Get(m, s[i].0), lib).Ok?
  {
    if |s| > 0 {
      ValidateKeysOkIff(s[1..], m, lib);
      assert forall i :: 1 <= i < |s| ==> s[i] == s[1..][i - 1];
    }
  }

  /** A failure names the first listed key whose rule fails, with that rule's message. */
  lemma {:induction false} ValidateKeysFirstError(s: Schema, m: Payload, lib: Lib)
    requires ValidateKeys(s, m, lib).Err?
    ensures var e := ValidateKeys(s, m, lib).error;
      exists i :: 0 <= i < |s| && s[i].0 == e.field &&
        CheckKey(s[i].1, Get(m, s[i].0), lib) == Err(e.kind) &&
        e.message == Message(s[i].0, s[i].1, e.kind, Get(m, s[i].0)) &&
        forall j :: 0 <= j < i ==> CheckKey(s[j].1, Get(m, s[j].0), lib).Ok?
  {
    var e := ValidateKeys(s, m, lib).error;
    if CheckKey(s[0].1, Get(m, s[0].0), lib).Ok? {
      ValidateKeysFirstError(s[1..], m, lib);
      var i :| 0 <= i < |s[1..]| && s[1..][i].0 == e.field &&
        CheckKey(s[1..][i].1, Get(m, s[1..][i].0), lib) == Err(e.kind) &&
        e.message == Message(s[1..][i].0, s[1..][i].1, e.kind, Get(m, s[1..][i].0)) &&
        forall j :: 0 <= j < i ==> CheckKey(s[1..][j].1, Get(m, s[1..][j].0), lib).Ok?;
      assert forall j :: 1 <= j < i + 1 ==> s[j] == s[1..][j - 1];
      assert s[i + 1] == s[1..][i];
    }
  }

  predicate DistinctKeys(s: Schema)
  {
    forall i, j :: 0 <= i < j < |s| ==> s[i].0 != s[j].0
  }

  /** On success each listed key holds its rule's output and every other key is untouched. */
  lemma {:induction false} ValidateKeysOutput(s: Schema, m: Payload, lib: Lib)
    requires DistinctKeys(s)
    requires ValidateKeys(s, m, lib).Ok?
    ensures var out := ValidateKeys(s, m, lib).value;
      (forall i :: 0 <= i < |s| ==>
         (CheckKey(s[i].1, Get(m, s[i].0), lib).Ok? &&
          Get(out, s[i].0) == CheckKey(s[i].1, Get(m, s[i].0), lib).value)) &&
      (forall f :: !Listed(s, f) ==> Get(out, f) == Get(m, f))
  {
    if |s| > 0 {
      var tail := s[1..];
      assert DistinctKeys(tail) by {
        forall i, j | 0 <= i < j < |tail| ensures tail[i].0 != tail[j].0 {
          assert tail[i] == s[i + 1] && tail[j] == s[j + 1];
        }
      }
      ValidateKeysOutput(tail, m, lib);
      var out := ValidateKeys(s, m, lib).value;
      var (f, r) := s[0];
      forall i | 0 <= i < |s|
        ensures CheckKey(s[i].1, Get(m, s[i].0), lib).Ok? &&
          Get(out, s[i].0) == CheckKey(s[i].1, Get(m, s[i].0), lib).value
      {
        if i > 0 {
          assert s[i] == tail[i - 1];
          assert s[i].0 != f;
        }
      }
      forall g | !Listed(s, g) ensures Get(out, g) == Get(m, g) {
        assert s[0].0 != g;
        assert !Listed(tail, g) by {
          forall i | 0 <= i < |tail| ensures tail[i].0 != g { assert tail[i] == s[i + 1]; }
        }
      }
    }
  }

  // ---------------------------------------------------------------------------
  // commentValidation.create

  lemma AllFieldsComplete(f: Field)
    ensures f in AllFields()
  {
    match f
    case FullName => case PhoneNumber => case ReceivedDate => case Gender =>
    case PreferredLocation => case SizeOfPlot => case InstagramUsername => case Comment =>
    case MediaId => case PostUrl => case Reply => case RepliedAt => case Status =>
  }

  /** The thirteen keys are pairwise different. */
  lemma AllFieldsDistinct()
    ensures forall i, j :: 0 <= i < j < |AllFields()| ==> AllFields()[i] != AllFields()[j]
  {
  }

  /** A schema whose keys are a list of distinct fields lists each of them once. */
  lemma KeyedBy(s: Schema, fs: seq<Field>)
    requires |s| == |fs| && forall i :: 0 <= i < |s| ==> s[i].0 == fs[i]
    requires forall i, j :: 0 <= i < j < |fs| ==> fs[i] != fs[j]
    ensures DistinctKeys(s)
    ensures forall f :: f in fs ==> Listed(s, f)
  {
    forall f | f in fs ensures Listed(s, f) {
      var i :| 0 <= i < |fs| && fs[i] == f;
      assert s[i].0 == f;
    }
  }

  lemma CreateSchemaShape()
    ensures DistinctKeys(CreateSchema())
    ensures forall f :: Listed(CreateSchema(), f)
  {
    var s := CreateSchema();
    AllFieldsDistinct();
    KeyedBy(s, AllFields());
    forall f ensures Listed(s, f) {
      AllFieldsComplete(f);
    }
  }

  /** `create` accepts a record exactly when every key passes its create rule. */
  lemma CreateOkIff(m: Payload, lib: Lib)
    ensures Create(m, lib).Ok? <==> forall f :: CheckKey(CreateRule(f), Get(m, f), lib).Ok?
  {
    var s := CreateSchema();
    CreateSchemaShape();
    ValidateKeysOkIff(s, m, lib);
    assert FirstUnknown(s, m, AllFields()).None?;
    if Create(m, lib).Ok? {
      forall f ensures CheckKey(CreateRule(f), Get(m, f), lib).Ok? {
        assert Listed(s, f);
        var i :| 0 <= i < |s| && s[i].0 == f;
        assert s[i].1 == CreateRule(f);
      }
    }
  }

  /** On success, `create` returns the record with each key's validated value (defaults filled). */
  lemma CreateOutput(m: Payload, lib: Lib, f: Field)
    requires Create(m, lib).Ok?
    ensures CheckKey(CreateRule(f), Get(m, f), lib).Ok?
    ensures Get(Create(m, lib).value, f) == CheckKey(CreateRule(f), Get(m, f), lib).value
  {
    var s := CreateSchema();
    CreateSchemaShape();
    assert Listed(s, f);
    var i :| 0 <= i < |s| && s[i].0 == f;
    ValidateKeysOutputAt(s, m, lib, i, f, CreateRule(f));
  }

  /** `ValidateKeysOutput` at one entry of the table. */
  lemma ValidateKeysOutputAt(s: Schema, m: Payload, lib: Lib, i: int, f: Field, r: Rule)
    requires DistinctKeys(s) && ValidateKeys(s, m, lib).Ok?
    requires 0 <= i < |s| && s[i] == (f, r)
    ensures CheckKey(r, Get(m, f), lib).Ok?
    ensures Get(ValidateKeys(s, m, lib).value, f) == CheckKey(r, Get(m, f), lib).value
  {
    ValidateKeysOutput(s, m, lib);
  }

  /** fullName: required, a string, 2 to 100 code units (so never empty). */
  lemma CreateFullName(v: Option<Value>, lib: Lib)
    ensures CheckKey(CreateRule(FullName), v, lib).Ok? <==>
      StrOf(v).Some? && 2 <= JsLength(StrOf(v).value) <= 100
    ensures v == Some(JsText("")) ==>
      CheckKey(CreateRule(FullName), v, lib) == Err(StringEmpty) &&
      Message(FullName, CreateRule(FullName), StringEmpty, v) == "Full name is required"
  {
    FullNameBounds(v, lib);
    if v == Some(JsText("")) {
      FullNameEmpty(lib);
    }
  }

  lemma FullNameBounds(v: Option<Value>, lib: Lib)
    ensures CheckKey(CreateRule(FullName), v, lib).Ok? <==>
      StrOf(v).Some? && 2 <= JsLength(StrOf(v).value) <= 100
  {
  }

  lemma FullNameEmpty(lib: Lib)
    ensures CheckKey(CreateRule(FullName), Some(JsText("")), lib) == Err(StringEmpty)
    ensures Message(FullName, CreateRule(FullName), StringEmpty, Some(JsText(""))) == "Full name is required"
  {
  }

  /** instagramUsername: required and matching `^[a-zA-Z0-9._]{1,30}$`. */
  lemma CreateInstagramUsername(v: Option<Value>, lib: Lib)
    ensures CheckKey(CreateRule(InstagramUsername), v, lib).Ok? <==>
      StrOf(v).Some? && Matches(UsernamePattern, StrOf(v).value)
  {
  }

  /** comment: required, 1 to 1000 code units; mediaId: required and non-empty. */
  lemma CreateCommentAndMediaId(v: Option<Value>, lib: Lib)
    ensures CheckKey(CreateRule(Comment), v, lib).Ok? <==>
      StrOf(v).Some? && 1 <= JsLength(StrOf(v).value) <= 1000
    ensures CheckKey(CreateRule(MediaId), v, lib).Ok? <==>
      StrOf(v).Some? && StrOf(v).value != ""
    ensures v.None? ==>
      (CheckKey(CreateRule(Comment), v, lib) == Err(AnyRequired) &&
       CheckKey(CreateRule(MediaId), v, lib) == Err(AnyRequired))
  {
  }

  /** phoneNumber: optional; when present "" or only digits, `+`, `-`, whitespace and parentheses. */
  lemma CreatePhoneNumber(v: Option<Value>, lib: Lib)
    ensures CheckKey(CreateRule(PhoneNumber), v, lib).Ok? <==>
      v.None? || (StrOf(v).Some? && forall i :: 0 <= i < |StrOf(v).value| ==> PhoneChar(StrOf(v).value[i]))
  {
  }

  /** gender: Male, Female, Other or ""; status: pending, replied or archived, "pending" when absent. */
  lemma CreateEnums(v: Option<Value>, lib: Lib)
    ensures CheckKey(CreateRule(Gender), v, lib).Ok? <==>
      v.None? || (StrOf(v).Some? && StrOf(v).value in ["Male", "Female", "Other", ""])
    ensures CheckKey(CreateRule(Status), v, lib).Ok? <==>
      v.None? || (StrOf(v).Some? && StrOf(v).value in ["pending", "replied", "archived"])
    ensures CheckKey(CreateRule(Status), None, lib) == Ok(Some(JsText("pending")))
  {
  }

  /** `create` fills status "pending" when the record has none. */
  lemma CreateStatusDefault(m: Payload, lib: Lib)
    requires Create(m, lib).Ok?
    requires Status !in m
    ensures Get(Create(m, lib).value, Status) == Some(JsText("pending"))
  {
    CreateOutput(m, lib, Status);
  }

  /** preferredLocation at most 200, sizeOfPlot at most 100, reply at most 1000; each also "". */
  lemma CreateLengthCaps(v: Option<Value>, lib: Lib)
    ensures CheckKey(CreateRule(PreferredLocation), v, lib).Ok? <==>
      v.None? || (StrOf(v).Some? && JsLength(StrOf(v).value) <= 200)
    ensures CheckKey(CreateRule(SizeOfPlot), v, lib).Ok? <==>
      v.None? || (StrOf(v).Some? && JsLength(StrOf(v).value) <= 100)
    ensures CheckKey(CreateRule(Reply), v, lib).Ok? <==>
      v.None? || (StrOf(v).Some? && JsLength(StrOf(v).value) <= 1000)
  {
  }

  // ---------------------------------------------------------------------------
  // commentValidation.update

  lemma UpdateSchemaShape()
    ensures DistinctKeys(UpdateSchema())
    ensures forall f :: Listed(UpdateSchema(), f) <==> InUpdate(f)
  {
    var s := UpdateSchema();
    assert forall i, j :: 0 <= i < j < |UpdateFields()| ==> UpdateFields()[i] != UpdateFields()[j];
    KeyedBy(s, UpdateFields());
    forall f | InUpdate(f) ensures f in UpdateFields() {
      match f
      case FullName => case PhoneNumber => case Gender => case PreferredLocation =>
      case SizeOfPlot => case InstagramUsername => case Comment => case PostUrl =>
      case Reply => case RepliedAt => case Status =>
    }
  }

  /** `update` requires no key: the empty record passes unchanged. */
  lemma UpdateRequiresNothing(lib: Lib)
    ensures Update(map[], lib) == Ok(map[])
  {
    var s := UpdateSchema();
    forall i | 0 <= i < |s| ensures CheckKey(s[i].1, None, lib) == Ok(None) {
      UpdateRuleOptional(s[i].0, lib);
    }
    ValidateKeysNothing(s, lib);
  }

  /** No update rule requires its key or gives it a default. */
  lemma UpdateRuleOptional(f: Field, lib: Lib)
    requires InUpdate(f)
    ensures CheckKey(UpdateRule(f), None, lib) == Ok(None)
  {
  }

  /** Rules that leave an undefined key undefined turn `{}` into `{}`. */
  lemma {:induction false} ValidateKeysNothing(s: Schema, lib: Lib)
    requires forall i :: 0 <= i < |s| ==> CheckKey(s[i].1, None, lib) == Ok(None)
    ensures ValidateKeys(s, map[], lib) == Ok(map[])
  {
    if |s| > 0 {
      assert forall i :: 0 <= i < |s[1..]| ==> s[1..][i] == s[i + 1];
      ValidateKeysNothing(s[1..], lib);
      assert Get(map[], s[0].0) == None;
    }
  }

  /** A key `update` receives obeys the same bounds as under `create`. */
  lemma UpdateSameBounds(f: Field, v: Value, lib: Lib)
    requires InUpdate(f)
    ensures CheckKey(UpdateRule(f), Some(v), lib).Ok? <==> CheckKey(CreateRule(f), Some(v), lib).Ok?
  {
  }

  /** `update` gives status no default, and refuses the keys it does not list. */
  lemma UpdateStatusAndUnknownKeys(m: Payload, lib: Lib)
    ensures CheckKey(UpdateRule(Status), None, lib) == Ok(None)
    ensures (MediaId in m || ReceivedDate in m) ==> Update(m, lib).Err?
  {
    if MediaId in m {
      UpdateRefusesUnlisted(m, lib, MediaId);
    } else if ReceivedDate in m {
      UpdateRefusesUnlisted(m, lib, ReceivedDate);
    }
  }

  /** A present key the update schema does not list makes `update` fail. */
  lemma UpdateRefusesUnlisted(m: Payload, lib: Lib, f: Field)
    requires f in m && !InUpdate(f)
    ensures Update(m, lib).Err?
  {
    UpdateSchemaShape();
    AllFieldsComplete(f);
    var fs := AllFields();
    var i :| 0 <= i < |fs| && fs[i] == f;
    if ValidateKeys(UpdateSchema(), m, lib).Ok? {
      assert FirstUnknown(UpdateSchema(), m, fs).Some?;
    }
  }
}

/**
 * The mongoose model `Comment` built from `commentSchema`: what `new Comment(payload)`
 * does to a record (trims the string paths declared `trim: true`, fills the
 * `receivedDate` and `status` defaults) and what `save()` checks before writing
 * (the `required` paths and the `enum` paths). The database itself is a store of
 * records that a write can fail to reach.
 */
module CommentSchema {
  import opened JsValues
  import opened CommentRules

  /** One path of `commentSchema`: `required`, `trim` and `enum` as declared. */
  datatype Path = Path(required: bool, trim: bool, enumValues: seq<string>)

  function SchemaPath(f: Field): Path
  {
    match f
    case FullName => Path(true, true, [])
    case PhoneNumber => Path(false, true, [])
    case ReceivedDate => Path(false, false, [])
    case Gender => Path(false, false, ["Male", "Female", "Other"])
    case PreferredLocation => Path(false, true, [])
    case SizeOfPlot => Path(false, true, [])
    case InstagramUsername => Path(true, true, [])
    case Comment => Path(true, true, [])
    case MediaId => Path(true, true, [])
    case PostUrl => Path(false, true, [])
    case Reply => Path(false, true, [])
    case RepliedAt => Path(false, false, [])
    case Status => Path(false, false, ["pending", "replied", "archived"])
  }

  /** The setter a path applies on assignment: `trim` on string values. */
  function CastValue(f: Field, v: Value): Value
  {
    if SchemaPath(f).trim && StrOf(Some(v)).Some? then JsText(Trim(StrOf(Some(v)).value)) else v
  }

  /** The setter leaves non-strings and untrimmed paths alone and trims the rest. */
  lemma CastValueTrims(f: Field, v: Value)
    ensures !SchemaPath(f).trim || StrOf(Some(v)).None? ==> CastValue(f, v) == v
    ensures StrOf(Some(CastValue(f, v))).Some? <==> StrOf(Some(v)).Some?
    // a trimmed string is a slice of the old one with no whitespace at either end
    ensures SchemaPath(f).trim && StrOf(Some(v)).Some? ==>
      var t := StrOf(Some(CastValue(f, v))).value;
      |t| <= |StrOf(Some(v)).value| && (t == [] || (!IsJsWhitespace(t[0]) && !IsJsWhitespace(t[|t| - 1])))
  {
  }

  /** `new Comment(m)` at time `now`: setters applied, absent `receivedDate` and `status` defaulted. */
  function Cast(m: Payload, now: int): (d: Payload)
    ensures d.Keys == m.Keys + {ReceivedDate, Status}
  {
    var c := map f | f in m :: CastValue(f, m[f]);
    var c1 := if ReceivedDate in m then c else c[ReceivedDate := DateObj(Some(now))];
    if Status in m then c1 else c1[Status := JsText("pending")]
  }

  /** A failed mongoose validator. */
  datatype SchemaError = Required(field: Field) | NotInEnum(field: Field, value: string)

  /** A required string path is satisfied only by a non-empty string. */
  predicate NonEmptyString(v: Option<Value>)
  {
    StrOf(v).Some? && StrOf(v).value != ""
  }

  /** An enum path accepts an absent value or one of its strings. */
  predicate InEnum(v: Option<Value>, values: seq<string>)
  {
    StrOf(v).None? || StrOf(v).value in values
  }

  /** The validators of one path, the first failing one reported. */
  function PathErrors(f: Field, v: Option<Value>): seq<SchemaError>
  {
    var p := SchemaPath(f);
    if p.required && !NonEmptyString(v) then [Required(f)]
    else if |p.enumValues| > 0 && !InEnum(v, p.enumValues) then [NotInEnum(f, StrOf(v).value)]
    else []
  }

  /** The errors of the paths `fs` of a document, path by path. */
  function ErrorsAlong(d: Payload, fs: seq<Field>): seq<SchemaError>
  {
    if |fs| == 0 then [] else PathErrors(fs[0], Get(d, fs[0])) + ErrorsAlong(d, fs[1..])
  }

  /** What `save()` validation reports for a document, path by path in schema order. */
  function SchemaErrors(d: Payload): seq<SchemaError>
  {
    ErrorsAlong(d, AllFields())
  }

  /** A document `save()` validation lets through. */
  predicate Storable(d: Payload)
  {
    SchemaErrors(d) == []
  }

  function SchemaErrorMessage(e: SchemaError): string
  {
    match e
    case Required(f) => Key(f) + ": Path `" + Key(f) + "` is required."
    case NotInEnum(f, v) => Key(f) + ": `" + v + "` is not a valid enum value for path `" + Key(f) + "`."
  }

  const ValidationPrefix := "Comment validation failed: "

  /** The message of mongoose's ValidationError for model `Comment`. */
  function ValidationMessage(errs: seq<SchemaError>): (msg: string)
    ensures ValidationPrefix <= msg
    // the first failed validator leads the list
    ensures |errs| > 0 ==> ValidationPrefix + SchemaErrorMessage(errs[0]) <= msg
    ensures |errs| == 1 ==> msg == ValidationPrefix + SchemaErrorMessage(errs[0])
  {
    ValidationPrefix +
    Join(seq(|errs|, i requires 0 <= i < |errs| => SchemaErrorMessage(errs[i])), ", ")
  }

  /** `doc.save()`: validation first, then the write, which fails with `fault` when there is one. */
  function SaveOutcome(doc: Payload, fault: Option<string>): (r: Result<Payload, string>)
    ensures r.Ok? <==> Storable(doc) && fault.None?
    ensures r.Ok? ==> r.value == doc
    ensures !Storable(doc) ==> r == Err(ValidationMessage(SchemaErrors(doc)))
    ensures Storable(doc) && fault.Some? ==> r == Err(fault.value)
  {
    if SchemaErrors(doc) != [] then Err(ValidationMessage(SchemaErrors(doc)))
    else if fault.Some? then Err(fault.value)
    else Ok(doc)
  }

  /** The comments collection: records are only ever appended, and each passed validation. */
  class CommentStore {
    var records: seq<Payload>

    ghost predicate Valid()
      reads this
    {
      forall i :: 0 <= i < |records| ==> Storable(records[i])
    }

    constructor ()
      ensures Valid() && records == []
    {
      records := [];
    }

    method Save(doc: Payload, fault: Option<string>) returns (r: Result<Payload, string>)
      requires Valid()
      modifies this
      ensures Valid()
      ensures r == SaveOutcome(doc, fault)
      ensures records == if r.Ok? then old(records) + [doc] else old(records)
    {
      var errs := SchemaErrors(doc);
      if errs != [] {
        r := Err(ValidationMessage(errs));
      } else if fault.Some? {
        r := Err(fault.value);
      } else {
        records := records + [doc];
        r := Ok(doc);
      }
    }
  }

  // ---------------------------------------------------------------------------
  // Properties of the schema

  /** A list of paths reports nothing exactly when each of its paths reports nothing. */
  lemma {:induction false} ErrorsAlongEmpty(d: Payload, fs: seq<Field>)
    ensures ErrorsAlong(d, fs) == [] <==> forall i :: 0 <= i < |fs| ==> PathErrors(fs[i], Get(d, fs[i])) == []
  {
    if |fs| > 0 {
      ErrorsAlongEmpty(d, fs[1..]);
      assert forall i :: 1 <= i < |fs| ==> fs[i] == fs[1..][i - 1];
    }
  }

  /** Every error of one of the paths is among the errors of the list. */
  lemma {:induction false} ErrorsAlongMember(d: Payload, fs: seq<Field>, i: nat, e: SchemaError)
    requires i < |fs| && e in PathErrors(fs[i], Get(d, fs[i]))
    ensures e in ErrorsAlong(d, fs)
  {
    if i > 0 {
      assert fs[i] == fs[1..][i - 1];
      ErrorsAlongMember(d, fs[1..], i - 1, e);
    }
  }

  /** A path with neither `required` nor `enum` never reports an error. */
  lemma PathErrorsFree(f: Field, v: Option<Value>)
    requires f !in {FullName, InstagramUsername, Comment, MediaId, Gender, Status}
    ensures PathErrors(f, v) == []
  {
  }

  /** The six validated paths all pass: what `StorableIff` states on its right-hand side. */
  predicate PathsPass(d: Payload)
  {
    NonEmptyString(Get(d, FullName)) && NonEmptyString(Get(d, InstagramUsername)) &&
    NonEmptyString(Get(d, Comment)) && NonEmptyString(Get(d, MediaId)) &&
    InEnum(Get(d, Gender), ["Male", "Female", "Other"]) &&
    InEnum(Get(d, Status), ["pending", "replied", "archived"])
  }

  lemma PathsPassStorable(d: Payload)
    requires PathsPass(d)
    ensures Storable(d)
  {
    var fs := AllFields();
    forall i | 0 <= i < |fs| ensures PathErrors(fs[i], Get(d, fs[i])) == [] {
      if fs[i] !in {FullName, InstagramUsername, Comment, MediaId, Gender, Status} {
        PathErrorsFree(fs[i], Get(d, fs[i]));
      }
    }
    ErrorsAlongEmpty(d, fs);
  }

  /** A path that reports nothing holds what its validators ask for. */
  lemma PathPasses(f: Field, v: Option<Value>)
    requires PathErrors(f, v) == []
    ensures SchemaPath(f).required ==> NonEmptyString(v)
    ensures |SchemaPath(f).enumValues| > 0 ==> InEnum(v, SchemaPath(f).enumValues)
  {
  }

  /** A storable document has no error on any path. */
  lemma StorableHasNoPathError(d: Payload, f: Field)
    requires Storable(d)
    ensures PathErrors(f, Get(d, f)) == []
  {
    if PathErrors(f, Get(d, f)) != [] {
      PathErrorInSchemaErrors(d, f, PathErrors(f, Get(d, f))[0]);
    }
  }

  lemma StorablePathsPass(d: Payload)
    requires Storable(d)
    ensures PathsPass(d)
  {
    StorableHasNoPathError(d, FullName);
    PathPasses(FullName, Get(d, FullName));
    StorableHasNoPathError(d, Gender);
    PathPasses(Gender, Get(d, Gender));
    StorableHasNoPathError(d, InstagramUsername);
    PathPasses(InstagramUsername, Get(d, InstagramUsername));
    StorableHasNoPathError(d, Comment);
    PathPasses(Comment, Get(d, Comment));
    StorableHasNoPathError(d, MediaId);
    PathPasses(MediaId, Get(d, MediaId));
    StorableHasNoPathError(d, Status);
    PathPasses(Status, Get(d, Status));
  }

  /**
   * `save()` validation passes exactly when fullName, instagramUsername, comment and
   * mediaId are non-empty strings and gender and status hold enum values or nothing.
   */
  lemma StorableIff(d: Payload)
    ensures Storable(d) <==>
      NonEmptyString(Get(d, FullName)) && NonEmptyString(Get(d, InstagramUsername)) &&
      NonEmptyString(Get(d, Comment)) && NonEmptyString(Get(d, MediaId)) &&
      InEnum(Get(d, Gender), ["Male", "Female", "Other"]) &&
      InEnum(Get(d, Status), ["pending", "replied", "archived"])
  {
    if Storable(d) {
      StorablePathsPass(d);
    }
    if PathsPass(d) {
      PathsPassStorable(d);
    }
  }

  /** `new Comment(m)` trims the string paths, keeps the others, and fills the two defaults. */
  lemma CastTrimsAndDefaults(m: Payload, now: int, f: Field)
    ensures f in m && SchemaPath(f).trim && StrOf(Get(m, f)).Some? ==>
      Get(Cast(m, now), f) == Some(JsText(Trim(StrOf(Get(m, f)).value)))
    ensures f in m && !SchemaPath(f).trim ==> Get(Cast(m, now), f) == Get(m, f)
    ensures Status !in m ==> Get(Cast(m, now), Status) == Some(JsText("pending"))
    ensures ReceivedDate !in m ==> Get(Cast(m, now), ReceivedDate) == Some(DateObj(Some(now)))
  {
  }

  /** A path's setter applied twice sets no more than once. */
  lemma CastValueIdempotent(f: Field, v: Value)
    ensures CastValue(f, CastValue(f, v)) == CastValue(f, v)
  {
    if SchemaPath(f).trim && StrOf(Some(v)).Some? {
      TrimIdempotent(StrOf(Some(v)).value);
    }
  }

  /** Every value of a cast document is already what its path's setter makes of it. */
  lemma CastValueFixed(m: Payload, now: int, f: Field)
    requires f in Cast(m, now)
    ensures CastValue(f, Cast(m, now)[f]) == Cast(m, now)[f]
  {
    var d := Cast(m, now);
    if f == ReceivedDate || f == Status {
      assert !SchemaPath(f).trim;
    } else {
      assert f in m;
      assert d[f] == CastValue(f, m[f]);
      CastValueIdempotent(f, m[f]);
    }
  }

  /** Casting a cast document changes nothing: the defaults are present and trimming is idempotent. */
  lemma CastIdempotent(m: Payload, now: int)
    ensures Cast(Cast(m, now), now) == Cast(m, now)
  {
    var d := Cast(m, now);
    var e := Cast(d, now);
    assert e == map f | f in d :: CastValue(f, d[f]);
    forall f | f in d ensures CastValue(f, d[f]) == d[f] {
      CastValueFixed(m, now, f);
    }
  }

  /** An error of one path is among the document's errors. */
  lemma PathErrorInSchemaErrors(d: Payload, f: Field, e: SchemaError)
    requires e in PathErrors(f, Get(d, f))
    ensures e in SchemaErrors(d)
  {
    AllFieldsComplete(f);
    var i :| 0 <= i < |AllFields()| && AllFields()[i] == f;
    ErrorsAlongMember(d, AllFields(), i, e);
  }

  /** A string of whitespace only trims to "". */
  lemma TrimAllWhitespace(s: string)
    requires forall i :: 0 <= i < |s| ==> IsJsWhitespace(s[i])
    ensures Trim(s) == ""
  {
  }

  /**
   * Joi `create` accepts a comment of whitespace only, but mongoose trims it to "" and
   * `save()` then refuses it as a missing required path.
   */
  lemma BlankCommentPassesJoiFailsSave(m: Payload, now: int, lib: Lib, s: string)
    requires Get(m, Comment) == Some(JsText(s))
    requires 0 < JsLength(s) <= 1000
    requires forall i :: 0 <= i < |s| ==> IsJsWhitespace(s[i])
    ensures CheckKey(CreateRule(Comment), Get(m, Comment), lib).Ok?
    ensures Required(Comment) in SchemaErrors(Cast(m, now))
  {
    BlankCommentPassesJoi(m, lib, s);
    TrimAllWhitespace(s);
    BlankCommentFailsSave(m, now, s);
  }

  /** Joi `create` checks a comment's length before anything that would see it is blank. */
  lemma BlankCommentPassesJoi(m: Payload, lib: Lib, s: string)
    requires Get(m, Comment) == Some(JsText(s))
    requires 0 < JsLength(s) <= 1000
    ensures CheckKey(CreateRule(Comment), Get(m, Comment), lib).Ok?
  {
    var r := CreateRule(Comment);
    assert r.StringRule? && r.required && r.valids == [] && !r.only && r.min == Some(1) &&
      r.max == Some(1000) && r.pattern.None? && !r.uri;
    assert s != [];
  }

  /** A comment that trims to "" is a missing required path once cast. */
  lemma BlankCommentFailsSave(m: Payload, now: int, s: string)
    requires Get(m, Comment) == Some(JsText(s))
    requires Trim(s) == ""
    ensures Required(Comment) in SchemaErrors(Cast(m, now))
  {
    BlankCommentCast(m, now, s);
    EmptyCommentMissing(Cast(m, now));
  }

  /** A document whose comment is "" reports the comment as a missing required path. */
  lemma EmptyCommentMissing(d: Payload)
    requires Get(d, Comment) == Some(JsText(""))
    ensures Required(Comment) in SchemaErrors(d)
  {
    assert SchemaPath(Comment).required;
    MissingRequiredPath(Comment, Get(d, Comment));
    PathErrorInSchemaErrors(d, Comment, Required(Comment));
  }

  /** Casting trims such a comment to the empty string. */
  lemma BlankCommentCast(m: Payload, now: int, s: string)
    requires Get(m, Comment) == Some(JsText(s))
    requires Trim(s) == ""
    ensures Get(Cast(m, now), Comment) == Some(JsText(""))
  {
    CastTrimsAndDefaults(m, now, Comment);
  }

  /** A required path without a non-empty string reports `Required`. */
  lemma MissingRequiredPath(f: Field, v: Option<Value>)
    requires SchemaPath(f).required && !NonEmptyString(v)
    ensures PathErrors(f, v) == [Required(f)]
  {
  }

  /** Joi `create` allows gender "", but the mongoose enum does not list "". */
  lemma EmptyGenderPassesJoiFailsSave(m: Payload, now: int, lib: Lib)
    requires Get(m, Gender) == Some(JsText(""))
    ensures CheckKey(CreateRule(Gender), Get(m, Gender), lib).Ok?
    ensures NotInEnum(Gender, "") in SchemaErrors(Cast(m, now))
  {
    EmptyGenderPassesJoi(m, lib);
    EmptyGenderFailsSave(m, now);
  }

  /** Gender "" is one of the values Joi `create` lists for it. */
  lemma EmptyGenderPassesJoi(m: Payload, lib: Lib)
    requires Get(m, Gender) == Some(JsText(""))
    ensures CheckKey(CreateRule(Gender), Get(m, Gender), lib).Ok?
  {
    assert "" in CreateRule(Gender).valids;
  }

  /** Gender "" stays "" once cast, and the mongoose enum refuses it. */
  lemma EmptyGenderFailsSave(m: Payload, now: int)
    requires Get(m, Gender) == Some(JsText(""))
    ensures NotInEnum(Gender, "") in SchemaErrors(Cast(m, now))
  {
    CastTrimsAndDefaults(m, now, Gender);
    EmptyGenderNotInEnum(Cast(m, now));
  }

  /** A document whose gender is "" reports it as outside the enum. */
  lemma EmptyGenderNotInEnum(d: Payload)
    requires Get(d, Gender) == Some(JsText(""))
    ensures NotInEnum(Gender, "") in SchemaErrors(d)
  {
    assert PathErrors(Gender, Get(d, Gender)) == [NotInEnum(Gender, "")];
    PathErrorInSchemaErrors(d, Gender, NotInEnum(Gender, ""));
  }
}

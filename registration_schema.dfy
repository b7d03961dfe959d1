/**
 * The registration form's schema: one rule per field, each reading only its
 * own field, and a validator that collects every failing field with that
 * field's message, in the order the schema lists the fields.
 */
module RegistrationSchema {
  import opened Wrappers
  import opened JsString
  import opened JsParseInt

  datatype Skill = Beginner | Intermediate | Advanced

  function SkillName(k: Skill): string
  {
    match k
    case Beginner => "beginner"
    case Intermediate => "intermediate"
    case Advanced => "advanced"
  }

  function ParseSkill(name: string): (r: Option<Skill>)
    ensures r.Some? <==> name in {"beginner", "intermediate", "advanced"}
    ensures r.Some? ==> SkillName(r.value) == name
  {
    if name == "beginner" then Some(Beginner)
    else if name == "intermediate" then Some(Intermediate)
    else if name == "advanced" then Some(Advanced)
    else None
  }

  /** The raw values the form hands to the schema; `None` is an absent value. */
  datatype FormInput = FormInput(
    childFirstName: string,
    childLastName: string,
    childAge: string,
    parentName: string,
    email: string,
    phone: string,
    skillLevel: Option<string>,
    additionalInfo: Option<string>)

  /** The values the schema returns once every rule holds. */
  datatype FormValues = FormValues(
    childFirstName: string,
    childLastName: string,
    childAge: string,
    parentName: string,
    email: string,
    phone: string,
    skillLevel: Skill,
    additionalInfo: Option<string>)

  /** The initial field values, to which `form.reset()` also returns. */
  function Defaults(): (d: FormInput)
    ensures d.childFirstName == d.childLastName == d.childAge == d.parentName == d.email == d.phone == ""
    ensures SkillRule(d.skillLevel) == Success(Beginner)
    ensures d.additionalInfo == Some("")
  {
    FormInput("", "", "", "", "", "", Some("beginner"), Some(""))
  }

  datatype Field =
    ChildFirstName | ChildLastName | ChildAge | ParentName | Email | Phone | SkillLevel | AdditionalInfo

  /** The fields in the order the schema declares them, which is the order of its errors. */
  const SchemaOrder: seq<Field> :=
    [ChildFirstName, ChildLastName, ChildAge, ParentName, Email, Phone, SkillLevel, AdditionalInfo]

  lemma EveryFieldInSchema()
    ensures forall f: Field :: f in SchemaOrder
  {
    forall f: Field ensures f in SchemaOrder {
      match f
      case ChildFirstName => assert SchemaOrder[0] == f;
      case ChildLastName => assert SchemaOrder[1] == f;
      case ChildAge => assert SchemaOrder[2] == f;
      case ParentName => assert SchemaOrder[3] == f;
      case Email => assert SchemaOrder[4] == f;
      case Phone => assert SchemaOrder[5] == f;
      case SkillLevel => assert SchemaOrder[6] == f;
      case AdditionalInfo => assert SchemaOrder[7] == f;
    }
  }

  /** The raw value of one field. */
  datatype FieldValue = Text(text: string) | Choice(choice: Option<string>)

  function ValueOf(input: FormInput, f: Field): FieldValue
  {
    match f
    case ChildFirstName => Text(input.childFirstName)
    case ChildLastName => Text(input.childLastName)
    case ChildAge => Text(input.childAge)
    case ParentName => Text(input.parentName)
    case Email => Text(input.email)
    case Phone => Text(input.phone)
    case SkillLevel => Choice(input.skillLevel)
    case AdditionalInfo => Choice(input.additionalInfo)
  }

  const FirstNameMessage := "First name must be at least 2 characters."
  const LastNameMessage := "Last name must be at least 2 characters."
  const AgeMessage := "Please enter a valid age."
  const ParentNameMessage := "Parent name must be at least 2 characters."
  const EmailMessage := "Please enter a valid email address."
  const PhoneMessage := "Phone number must be at least 10 digits."
  const SkillRequiredMessage := "Please select a skill level."

  /** The schema library's own message for a value outside an enumeration. */
  function InvalidSkillMessage(received: string): string
  {
    "Invalid enum value. Expected 'beginner' | 'intermediate' | 'advanced', received '" + received + "'"
  }

  /** `z.string().min(n, {message})`: too few UTF-16 code units is an error. */
  function MinLength(s: string, n: nat, message: string): (r: Option<string>)
    ensures r.Some? ==> r.value == message
    ensures |s| >= n ==> r.None?
    ensures 2 * |s| < n ==> r.Some?
    ensures IsBmp(s) ==> (r.Some? <==> |s| < n)
  {
    Utf16LengthBounds(s);
    if Utf16Length(s) < n then Some(message) else None
  }

  /** `z.enum([...], {required_error})` over the three skill levels. */
  function SkillRule(choice: Option<string>): (r: Result<Skill, string>)
    ensures r.Success? <==> choice.Some? && choice.value in {"beginner", "intermediate", "advanced"}
    ensures r.Success? ==> choice == Some(SkillName(r.value))
    ensures choice.None? ==> r == Failure(SkillRequiredMessage)
    ensures r.Failure? && choice.Some? ==> r.error == InvalidSkillMessage(choice.value)
  {
    match choice
    case None => Failure(SkillRequiredMessage)
    case Some(name) =>
      match ParseSkill(name)
      case Some(k) => Success(k)
      case None => Failure(InvalidSkillMessage(name))
  }

  /**
   * The error message of one field, or `None` when its rule holds. `isEmail`
   * is the schema library's e-mail syntax check, which is not modelled.
   */
  function Issue(f: Field, input: FormInput, isEmail: string -> bool): (r: Option<string>)
    ensures f == AdditionalInfo ==> r.None?
    ensures r.Some? ==> r.value != ""
  {
    match f
    case ChildFirstName => MinLength(input.childFirstName, 2, FirstNameMessage)
    case ChildLastName => MinLength(input.childLastName, 2, LastNameMessage)
    case ChildAge => if IsPositiveInteger(input.childAge) then None else Some(AgeMessage)
    case ParentName => MinLength(input.parentName, 2, ParentNameMessage)
    case Email => if isEmail(input.email) then None else Some(EmailMessage)
    case Phone => MinLength(input.phone, 10, PhoneMessage)
    case SkillLevel => if SkillRule(input.skillLevel).Success? then None else Some(SkillRule(input.skillLevel).error)
    case AdditionalInfo => None
  }

  datatype FieldError = FieldError(field: Field, message: string)

  /** The errors of the fields in `fields`, in that order. */
  function Issues(input: FormInput, isEmail: string -> bool, fields: seq<Field>): (r: seq<FieldError>)
    ensures forall e :: e in r ==> e.field in fields && Issue(e.field, input, isEmail) == Some(e.message)
    ensures forall f :: f in fields && Issue(f, input, isEmail).Some? ==>
      FieldError(f, Issue(f, input, isEmail).value) in r
  {
    if fields == [] then []
    else
      var head := match Issue(fields[0], input, isEmail)
        case None => []
        case Some(m) => [FieldError(fields[0], m)];
      head + Issues(input, isEmail, fields[1..])
  }

  /**
   * The schema's parse: the typed values when every rule holds, otherwise the
   * errors of all failing fields at once.
   */
  function Validate(input: FormInput, isEmail: string -> bool): (r: Result<FormValues, seq<FieldError>>)
    ensures r.Success? <==> forall f :: Issue(f, input, isEmail).None?
    ensures r.Success? ==>
      && r.value.childFirstName == input.childFirstName
      && r.value.childLastName == input.childLastName
      && r.value.childAge == input.childAge
      && r.value.parentName == input.parentName
      && r.value.email == input.email
      && r.value.phone == input.phone
      && input.skillLevel == Some(SkillName(r.value.skillLevel))
      && r.value.additionalInfo == input.additionalInfo
    ensures r.Failure? ==>
      && r.error != []
      && forall f, m :: FieldError(f, m) in r.error <==> Issue(f, input, isEmail) == Some(m)
  {
    var issues := Issues(input, isEmail, SchemaOrder);
    EveryFieldInSchema();
    match SkillRule(input.skillLevel)
    case Failure(_) =>
      assert Issue(SkillLevel, input, isEmail).Some?;
      Failure(issues)
    case Success(k) =>
      if issues != [] then
        assert issues[0] in issues;
        Failure(issues)
      else Success(FormValues(
        input.childFirstName, input.childLastName, input.childAge, input.parentName,
        input.email, input.phone, k, input.additionalInfo))
  }

  /** A field's verdict depends on that field's value alone. */
  lemma IssueIsLocal(f: Field, a: FormInput, b: FormInput, isEmail: string -> bool)
    requires ValueOf(a, f) == ValueOf(b, f)
    ensures Issue(f, a, isEmail) == Issue(f, b, isEmail)
  {
  }

  /**
   * Hence whether, and with which message, the validator flags a field is the
   * same for any two inputs that agree on that field.
   */
  lemma FlaggedIsLocal(f: Field, m: string, a: FormInput, b: FormInput, isEmail: string -> bool)
    requires ValueOf(a, f) == ValueOf(b, f)
    ensures Flagged(Validate(a, isEmail), f, m) <==> Flagged(Validate(b, isEmail), f, m)
  {
    IssueIsLocal(f, a, b, isEmail);
  }

  /** The validation result reports field `f` with message `m`. */
  predicate Flagged(r: Result<FormValues, seq<FieldError>>, f: Field, m: string)
  {
    r.Failure? && FieldError(f, m) in r.error
  }

  /**
   * The three name fields accept a value of at least two UTF-16 code units:
   * two characters, or one character outside the Basic Multilingual Plane. Each
   * fails with its own message.
   */
  lemma NameRules(input: FormInput, isEmail: string -> bool)
    ensures Issue(ChildFirstName, input, isEmail) ==
      if AtLeastTwoUnits(input.childFirstName) then None else Some(FirstNameMessage)
    ensures Issue(ChildLastName, input, isEmail) ==
      if AtLeastTwoUnits(input.childLastName) then None else Some(LastNameMessage)
    ensures Issue(ParentName, input, isEmail) ==
      if AtLeastTwoUnits(input.parentName) then None else Some(ParentNameMessage)
  {
    AtLeastTwoCodeUnits(input.childFirstName);
    AtLeastTwoCodeUnits(input.childLastName);
    AtLeastTwoCodeUnits(input.parentName);
  }

  predicate AtLeastTwoUnits(s: string)
  {
    |s| >= 2 || (|s| == 1 && s[0] as int >= 0x1_0000)
  }

  /**
   * The phone rule is a length check only: any ten characters pass, whatever
   * they are, and for text in the Basic Multilingual Plane ten characters are
   * also required.
   */
  lemma PhoneRule(input: FormInput, isEmail: string -> bool)
    ensures |input.phone| >= 10 ==> Issue(Phone, input, isEmail) == None
    ensures IsBmp(input.phone) ==> (Issue(Phone, input, isEmail) == None <==> |input.phone| >= 10)
    ensures Issue(Phone, input, isEmail) in {None, Some(PhoneMessage)}
  {
    Utf16LengthBounds(input.phone);
  }

  /**
   * The age rule accepts exactly the text whose leading integer, read in radix
   * 10 after white space and an optional plus sign, is positive.
   */
  lemma AgeRule(input: FormInput, isEmail: string -> bool)
    ensures Issue(ChildAge, input, isEmail) in {None, Some(AgeMessage)}
    ensures Issue(ChildAge, input, isEmail) == None <==>
      var t := TrimStart(input.childAge);
      var z := LeadingDigits(Unsigned(t), 10);
      !IsNegative(t) && exists i :: 0 <= i < |z| && z[i] != '0'
  {
    PositiveIntegerIff(input.childAge);
  }

  /**
   * The skill level must be one of the three names; an absent value gets the
   * "required" message. The default value is accepted, and so is any
   * additional information, absent or not.
   */
  lemma SkillAndInfoRules(input: FormInput, isEmail: string -> bool)
    ensures Issue(SkillLevel, input, isEmail) == None <==>
      input.skillLevel in {Some("beginner"), Some("intermediate"), Some("advanced")}
    ensures input.skillLevel == None ==> Issue(SkillLevel, input, isEmail) == Some(SkillRequiredMessage)
    ensures Issue(SkillLevel, Defaults(), isEmail) == None
    ensures Issue(AdditionalInfo, input, isEmail) == None
  {
  }

  /** No field is listed twice in the schema. */
  lemma SchemaOrderDistinct()
    ensures forall i, j :: 0 <= i < j < |SchemaOrder| ==> SchemaOrder[i] != SchemaOrder[j]
  {
  }

  /** When the only failing field among distinct `fields` is `f`, its error is the only one. */
  lemma {:induction false} IssuesOfOne(input: FormInput, isEmail: string -> bool, fields: seq<Field>, f: Field)
    requires forall i, j :: 0 <= i < j < |fields| ==> fields[i] != fields[j]
    requires forall g :: g != f ==> Issue(g, input, isEmail).None?
    requires Issue(f, input, isEmail).Some?
    ensures Issues(input, isEmail, fields) ==
      if f in fields then [FieldError(f, Issue(f, input, isEmail).value)] else []
  {
    if fields != [] {
      IssuesOfOne(input, isEmail, fields[1..], f);
      if fields[0] == f {
        assert f !in fields[1..] by {
          forall k | 0 <= k < |fields[1..]| ensures fields[1..][k] != f {
            assert fields[1..][k] == fields[k + 1];
          }
        }
      } else {
        assert f in fields <==> f in fields[1..];
      }
    }
  }

  /**
   * Exactly one field wrong, exactly one error: the validator flags that field
   * with its message and no independently valid field.
   */
  lemma OnlyFailingField(input: FormInput, isEmail: string -> bool, f: Field)
    requires forall g :: g != f ==> Issue(g, input, isEmail).None?
    requires Issue(f, input, isEmail).Some?
    ensures Validate(input, isEmail) == Failure([FieldError(f, Issue(f, input, isEmail).value)])
  {
    SchemaOrderDistinct();
    EveryFieldInSchema();
    IssuesOfOne(input, isEmail, SchemaOrder, f);
  }

  /**
   * The form as first shown cannot be submitted: the four `min` rules and the
   * age rule reject their empty defaults, and the default skill level and
   * additional information are accepted.
   */
  lemma DefaultsRejected(isEmail: string -> bool)
    ensures Validate(Defaults(), isEmail).Failure?
    ensures forall f :: f != Email ==>
      (Issue(f, Defaults(), isEmail).Some? <==> f !in {SkillLevel, AdditionalInfo})
  {
    var d := Defaults();
    forall f | f != Email
      ensures Issue(f, d, isEmail).Some? <==> f !in {SkillLevel, AdditionalInfo}
    {
      match f
      case ChildAge =>
        assert TrimStart("") == "";
        assert !IsPositiveInteger("");
      case SkillLevel =>
        assert SkillRule(d.skillLevel).Success?;
      case _ =>
    }
    assert Issue(ChildFirstName, d, isEmail).Some?;
  }
}

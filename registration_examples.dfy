/** Worked inputs for the schema and the age parsing. */
module RegistrationExamples {
  import opened Wrappers
  import opened JsString
  import opened JsParseInt
  import opened RegistrationSchema

  /** An input every rule accepts, provided the e-mail check accepts its address. */
  function Sample(): FormInput
  {
    FormInput("Ada", "Lovelace", "9", "Grace Hopper", "grace@example.com", "5551234567", Some("beginner"), None)
  }

  lemma NineIsPositive()
    ensures IsPositiveInteger("9")
  {
    DecimalRoundTrip(9);
    assert Decimal(9) == "9";
  }

  /** Every rule but the e-mail check holds of the sample. */
  lemma SampleIssues(isEmail: string -> bool)
    ensures forall f :: f != Email ==> Issue(f, Sample(), isEmail).None?
  {
    forall f | f != Email ensures Issue(f, Sample(), isEmail).None? {
      match f
      case ChildFirstName => NameRules(Sample(), isEmail);
      case ChildLastName => NameRules(Sample(), isEmail);
      case ParentName => NameRules(Sample(), isEmail);
      case ChildAge => NineIsPositive();
      case Phone => PhoneRule(Sample(), isEmail);
      case SkillLevel =>
      case AdditionalInfo =>
    }
  }

  lemma SampleAccepted(isEmail: string -> bool)
    requires isEmail("grace@example.com")
    ensures Validate(Sample(), isEmail).Success?
  {
    SampleIssues(isEmail);
  }

  /** A one-letter first name is flagged, and nothing else is. */
  lemma ShortFirstName(isEmail: string -> bool)
    requires isEmail("grace@example.com")
    ensures Validate(Sample().(childFirstName := "A"), isEmail)
      == Failure([FieldError(ChildFirstName, FirstNameMessage)])
  {
    var input := Sample().(childFirstName := "A");
    SampleIssues(isEmail);
    forall g | g != ChildFirstName ensures Issue(g, input, isEmail).None? {
      IssueIsLocal(g, input, Sample(), isEmail);
    }
    NameRules(input, isEmail);
    OnlyFailingField(input, isEmail, ChildFirstName);
  }

  /** A negative age is flagged, and nothing else is. */
  lemma NegativeAge(isEmail: string -> bool)
    requires isEmail("grace@example.com")
    ensures Validate(Sample().(childAge := "-3"), isEmail) == Failure([FieldError(ChildAge, AgeMessage)])
  {
    var input := Sample().(childAge := "-3");
    SampleIssues(isEmail);
    forall g | g != ChildAge ensures Issue(g, input, isEmail).None? {
      IssueIsLocal(g, input, Sample(), isEmail);
    }
    MinusThreeRejected();
    OnlyFailingField(input, isEmail, ChildAge);
  }

  lemma MinusThreeRejected()
    ensures !IsPositiveInteger("-3")
  {
    assert !IsJsWhiteSpace('-');
    assert TrimStart("-3") == "-3";
  }

  /** An address the e-mail check rejects is flagged, and nothing else is. */
  lemma BadEmail(isEmail: string -> bool)
    requires !isEmail("not-an-email")
    ensures Validate(Sample().(email := "not-an-email"), isEmail) == Failure([FieldError(Email, EmailMessage)])
  {
    var input := Sample().(email := "not-an-email");
    SampleIssues(isEmail);
    forall g | g != Email ensures Issue(g, input, isEmail).None? {
      IssueIsLocal(g, input, Sample(), isEmail);
    }
    OnlyFailingField(input, isEmail, Email);
  }

  /**
   * The age rule reads only the leading integer: " 12 years" is accepted as 12,
   * while "0x1A" reads as 0 in radix 10 and is rejected, although `parseInt`
   * without a radix would read it as 26.
   */
  lemma LeadingIntegerAge()
    ensures ParseInt(" 12 years", Radix10) == Num(12) && IsPositiveInteger(" 12 years")
  {
    assert !IsJsWhiteSpace('1') && " 12 years"[1..] == "12 years";
    assert TrimStart(" 12 years") == "12 years";
    assert "12 years"[1..] == "2 years" && "2 years"[1..] == " years";
    assert LeadingDigits(" years", 10) == [];
    assert LeadingDigits("12 years", 10) == "12";
    assert "12"[..1] == "1" && "1"[..0] == [];
    assert DigitsValue("12", 10) == 12;
  }

  lemma HexAgeRejected()
    ensures ParseInt("0x1A", Radix10) == Num(0) && !IsPositiveInteger("0x1A")
  {
    assert TrimStart("0x1A") == "0x1A";
    assert "0x1A"[1..] == "x1A";
    assert LeadingDigits("0x1A", 10) == "0";
    assert "0"[..0] == [];
  }

  lemma HexAgeWithoutRadix()
    ensures ParseInt("0x1A", Omitted) == Num(26)
  {
    assert TrimStart("0x1A") == "0x1A";
    assert HasHexPrefix("0x1A") && "0x1A"[2..] == "1A";
    assert "1A"[1..] == "A" && "A"[1..] == [];
    assert LeadingDigits("1A", 16) == "1A";
    assert "1A"[..1] == "1" && "1"[..0] == [];
    assert DigitsValue("1A", 16) == 26;
  }
}

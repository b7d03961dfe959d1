/**
 * The row the form inserts into the `registration_requests` table, built from
 * the values that passed the schema.
 */
module RegistrationStorage {
  import opened Wrappers
  import opened JsString
  import opened JsParseInt
  import opened RegistrationSchema

  /**
   * One inserted row; the fields stand for the columns child_first_name,
   * child_last_name, child_age, parent_name, email, phone, skill_level and
   * additional_info. `status` is left to the table.
   */
  datatype RegistrationRow = RegistrationRow(
    childFirstName: string,
    childLastName: string,
    childAge: ParsedInt,
    parentName: string,
    email: string,
    phone: string,
    skillLevel: string,
    additionalInfo: string)

  /**
   * The insert payload. The age text is parsed again, this time by `parseInt`
   * without a radix; absent or empty additional information becomes ''
   * (that is what `data.additionalInfo || ''` does).
   */
  function ToStorage(data: FormValues): (r: RegistrationRow)
    ensures r.additionalInfo == if data.additionalInfo.Some? then data.additionalInfo.value else ""
  {
    RegistrationRow(
      data.childFirstName,
      data.childLastName,
      ParseInt(data.childAge, Omitted),
      data.parentName,
      data.email,
      data.phone,
      SkillName(data.skillLevel),
      if data.additionalInfo.Some? && data.additionalInfo.value != "" then data.additionalInfo.value else "")
  }

  /**
   * Every row built from validated input satisfies the schema: its age is a
   * positive integer equal to the radix-10 reading of the age text, the names
   * and phone are as long as the rules demand, the e-mail passed the e-mail
   * check, the skill level is one of the three names, and the text fields are
   * the ones entered.
   */
  lemma ValidatedRow(input: FormInput, isEmail: string -> bool, v: FormValues)
    requires Validate(input, isEmail) == Success(v)
    ensures var r := ToStorage(v);
      && r.childAge.Num? && r.childAge.value > 0
      && r.childAge == ParseInt(input.childAge, Radix10)
      && Utf16Length(r.childFirstName) >= 2 && r.childFirstName == input.childFirstName
      && Utf16Length(r.childLastName) >= 2 && r.childLastName == input.childLastName
      && Utf16Length(r.parentName) >= 2 && r.parentName == input.parentName
      && Utf16Length(r.phone) >= 10 && r.phone == input.phone
      && isEmail(r.email) && r.email == input.email
      && Some(r.skillLevel) == input.skillLevel
      && r.skillLevel in {"beginner", "intermediate", "advanced"}
  {
    assert Issue(ChildAge, input, isEmail) == None;
    assert Issue(ChildFirstName, input, isEmail) == None;
    assert Issue(ChildLastName, input, isEmail) == None;
    assert Issue(ParentName, input, isEmail) == None;
    assert Issue(Phone, input, isEmail) == None;
    assert Issue(Email, input, isEmail) == None;
    OmittedRadixAgreesOnPositive(input.childAge);
  }
}

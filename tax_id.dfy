/**
 * The company form's tax id (AFM) rule: the submitted value is stripped of
 * surrounding whitespace, must be empty or exactly nine digits, and once a
 * saved company has a tax id no other value is accepted.
 */
module CompanyForms {
  import opened Wrappers
  import opened Text

  /** The company the form edits: whether it is already saved, and its stored tax id. */
  datatype CompanyInstance = CompanyInstance(persisted: bool, taxId: Option<string>)

  /** Why a tax id is refused: not nine digits, or a change to a locked tax id. */
  datatype TaxIdError = NotNineDigits | Locked

  /** The pattern `\d{9}` matched against the whole value. */
  predicate NineDigits(s: string) {
    |s| == 9 && AllDigits(s)
  }

  /** The stored tax id, stripped; empty when there is none. */
  function ExistingTaxId(instance: CompanyInstance): string {
    Strip(instance.taxId.GetOr(""))
  }

  /** A saved company with a non-empty tax id keeps it. */
  predicate IsLocked(instance: CompanyInstance) {
    instance.persisted && ExistingTaxId(instance) != []
  }

  /**
   * `clean_tax_id`: the format check comes first, then the lock; a value
   * that passes both is returned stripped.
   */
  function CleanTaxId(submitted: Option<string>, instance: CompanyInstance): (r: Result<string, TaxIdError>)
    ensures var v := Strip(submitted.GetOr(""));
            && (r.Ok? <==> (v == [] || NineDigits(v)) && (IsLocked(instance) ==> v == ExistingTaxId(instance)))
            && (r.Ok? ==> r.value == v)
            && (v != [] && !NineDigits(v) ==> r == Err(NotNineDigits))
            && (r == Err(Locked) <==> (v == [] || NineDigits(v)) && IsLocked(instance) && v != ExistingTaxId(instance))
  {
    var value := Strip(submitted.GetOr(""));
    if value != [] && !NineDigits(value) then Err(NotNineDigits)
    else if instance.persisted && ExistingTaxId(instance) != [] && value != ExistingTaxId(instance) then Err(Locked)
    else Ok(value)
  }

  /** Submitting the cleaned value again gives the same answer. */
  lemma CleanedIsFixedPoint(submitted: Option<string>, instance: CompanyInstance)
    requires CleanTaxId(submitted, instance).Ok?
    ensures CleanTaxId(Some(CleanTaxId(submitted, instance).value), instance) == CleanTaxId(submitted, instance)
  {
    StripIdempotent(submitted.GetOr(""));
  }

  /** On a locked company the only value accepted is the stored one. */
  lemma LockedTaxIdUnchanged(submitted: Option<string>, instance: CompanyInstance)
    requires IsLocked(instance) && CleanTaxId(submitted, instance).Ok?
    ensures CleanTaxId(submitted, instance).value == ExistingTaxId(instance)
  {
  }

  /** On a locked company the stored value passes again, with any whitespace around it, when it is nine digits. */
  lemma LockedTaxIdResubmitted(pre: string, post: string, instance: CompanyInstance)
    requires IsLocked(instance) && NineDigits(ExistingTaxId(instance))
    requires AllSpace(pre) && AllSpace(post)
    ensures CleanTaxId(Some(pre + ExistingTaxId(instance) + post), instance) == Ok(ExistingTaxId(instance))
  {
    var x := ExistingTaxId(instance);
    StripPadded(pre, x, post);
  }

  /** A locked tax id that is not nine digits refuses every submission. */
  lemma MalformedLockedRefusesAll(submitted: Option<string>, instance: CompanyInstance)
    requires IsLocked(instance) && !NineDigits(ExistingTaxId(instance))
    ensures CleanTaxId(submitted, instance).Err?
  {
  }

  /** On a new company any nine digits, with whitespace around them, pass, and so does an empty value. */
  lemma NewCompanyAccepts(pre: string, digits: string, post: string, instance: CompanyInstance)
    requires !instance.persisted && NineDigits(digits) && AllSpace(pre) && AllSpace(post)
    ensures CleanTaxId(Some(pre + digits + post), instance) == Ok(digits)
    ensures CleanTaxId(None, instance) == Ok("")
  {
    assert IsAsciiDigit(digits[0]) && IsAsciiDigit(digits[8]);
    StripPadded(pre, digits, post);
    assert Strip(pre + digits + post) == digits;
    assert "" == [] + [] + [];
    StripPadded([], [], []);
  }

  /** A value with no surrounding whitespace that is not nine digits is refused for its format, whatever the company. */
  lemma MalformedRefused(s: string, instance: CompanyInstance)
    requires s != [] && !IsSpace(s[0]) && !IsSpace(s[|s| - 1]) && !NineDigits(s)
    ensures CleanTaxId(Some(s), instance) == Err(NotNineDigits)
  {
    assert [] + s + [] == s;
    StripPadded([], s, []);
  }

  /** Letters, too few digits and too many digits are each refused for their format. */
  lemma WrongFormatsRefused(instance: CompanyInstance)
    ensures CleanTaxId(Some("123ABC789"), instance) == Err(NotNineDigits)
    ensures CleanTaxId(Some("12345"), instance) == Err(NotNineDigits)
    ensures CleanTaxId(Some("1234567890"), instance) == Err(NotNineDigits)
  {
    assert !IsAsciiDigit("123ABC789"[3]);
    MalformedRefused("123ABC789", instance);
    MalformedRefused("12345", instance);
    MalformedRefused("1234567890", instance);
  }

  /** A saved company with tax id 123456789 refuses 987654321 as a change. */
  lemma ChangeOfLockedRefused()
    ensures CleanTaxId(Some("987654321"), CompanyInstance(true, Some("123456789"))) == Err(Locked)
  {
    StripPadded([], "987654321", []);
    assert [] + "987654321" + [] == "987654321";
    StripPadded([], "123456789", []);
    assert [] + "123456789" + [] == "123456789";
  }
}

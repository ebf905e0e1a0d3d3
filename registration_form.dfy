/**
 The registration page's form state and its submit logic: the eight-field
 form record, the change handler that replaces one field, the validator that
 maps field names to messages, and the submit gate that either records those
 messages or clears them and issues the request.
 */
module RegistrationForm {
  import opened TextPatterns

  datatype Option<T> = None | Some(value: T)

  // ----------------------------------------------------------- the record

  /** The form record; every field is the text of one input. */
  datatype FormData = FormData(
    fullName: string,
    contactNumber: string,
    email: string,
    day: string,
    month: string,
    year: string,
    password: string,
    confirmPassword: string)

  /** The record the page starts with: every field empty. */
  const EmptyForm := FormData("", "", "", "", "", "", "", "")

  /** The eight inputs; each one's `name` attribute names the record field it edits. */
  datatype Field = FullName | ContactNumber | Email | Day | Month | Year | Password | ConfirmPassword

  function Get(d: FormData, f: Field): string {
    match f
    case FullName => d.fullName
    case ContactNumber => d.contactNumber
    case Email => d.email
    case Day => d.day
    case Month => d.month
    case Year => d.year
    case Password => d.password
    case ConfirmPassword => d.confirmPassword
  }

  /** `{ ...formData, [name]: value }`: a copy of the record with one field replaced. */
  function WithField(d: FormData, f: Field, v: string): (r: FormData)
    ensures Get(r, f) == v
    ensures forall g :: g != f ==> Get(r, g) == Get(d, g)
  {
    match f
    case FullName => d.(fullName := v)
    case ContactNumber => d.(contactNumber := v)
    case Email => d.(email := v)
    case Day => d.(day := v)
    case Month => d.(month := v)
    case Year => d.(year := v)
    case Password => d.(password := v)
    case ConfirmPassword => d.(confirmPassword := v)
  }

  /** Two records that agree on every field are the same record. */
  lemma {:induction false} FieldsDetermineRecord(d: FormData, e: FormData)
    requires forall f :: Get(d, f) == Get(e, f)
    ensures d == e
  {
    assert Get(d, FullName) == Get(e, FullName) && Get(d, ContactNumber) == Get(e, ContactNumber);
    assert Get(d, Email) == Get(e, Email) && Get(d, Day) == Get(e, Day);
    assert Get(d, Month) == Get(e, Month) && Get(d, Year) == Get(e, Year);
    assert Get(d, Password) == Get(e, Password) && Get(d, ConfirmPassword) == Get(e, ConfirmPassword);
  }

  /** Writing a field's current value back leaves the record as it was. */
  lemma WithFieldCurrentValue(d: FormData, f: Field)
    ensures WithField(d, f, Get(d, f)) == d
  {
    FieldsDetermineRecord(WithField(d, f, Get(d, f)), d);
  }

  /** Of two edits to the same field the later one wins; edits to different fields commute. */
  lemma WithFieldTwice(d: FormData, f: Field, v: string, g: Field, w: string)
    ensures f == g ==> WithField(WithField(d, f, v), g, w) == WithField(d, g, w)
    ensures f != g ==> WithField(WithField(d, f, v), g, w) == WithField(WithField(d, g, w), f, v)
  {
    FieldsDetermineRecord(WithField(WithField(d, f, v), g, w),
      if f == g then WithField(d, g, w) else WithField(WithField(d, g, w), f, v));
  }

  // ------------------------------------------------- keys and messages

  const FullNameKey := "full_name"
  const ContactNumberKey := "contact_number"
  const EmailKey := "email"
  const DateOfBirthKey := "date_of_birth"
  const PasswordKey := "password"
  const ConfirmPasswordKey := "confirm_password"

  /** The only keys the validator ever writes. */
  const ErrorKeys: set<string> :=
    {FullNameKey, ContactNumberKey, EmailKey, DateOfBirthKey, PasswordKey, ConfirmPasswordKey}

  const FullNameRequired := "Full name is required"
  const ContactNumberRequired := "Contact number is required"
  const ContactNumberFormat := "Contact number must be a 10-digit number"
  const EmailRequired := "Email is required"
  const EmailFormat := "Invalid email format"
  const DateOfBirthRequired := "Date of birth is required"
  const PasswordRequired := "Password is required"
  const PasswordFormat :=
    "Password must contain at least 8 characters including uppercase, lowercase, and numbers"
  const PasswordMismatch := "Passwords do not match"

  // --------------------------------------- what each rule means, per key

  /** Full name: required. */
  ghost function FullNameMessage(s: string): Option<string> {
    if AllWhitespace(s) then Some(FullNameRequired) else None
  }

  /** Contact number: required, then exactly ten digits. */
  ghost function ContactNumberMessage(s: string): Option<string> {
    if AllWhitespace(s) then Some(ContactNumberRequired)
    else if IsTenAsciiDigits(s) then None
    else Some(ContactNumberFormat)
  }

  /** Email: required, then an `@` and a later `.` with non-space text around both. */
  ghost function EmailMessage(s: string): Option<string> {
    if AllWhitespace(s) then Some(EmailRequired)
    else if HasAtDot(s) then None
    else Some(EmailFormat)
  }

  /** Date of birth: one message for the three parts together. */
  ghost function DateOfBirthMessage(day: string, month: string, year: string): Option<string> {
    if AllWhitespace(day) || AllWhitespace(month) || AllWhitespace(year)
    then Some(DateOfBirthRequired) else None
  }

  /** Password: required, then the strength pattern. */
  ghost function PasswordMessage(s: string): Option<string> {
    if AllWhitespace(s) then Some(PasswordRequired)
    else if PasswordPatternFound(s) then None
    else Some(PasswordFormat)
  }

  /** Confirmation: equal to the password, independently of the password's own rule. */
  ghost function ConfirmPasswordMessage(password: string, confirm: string): Option<string> {
    if confirm != password then Some(PasswordMismatch) else None
  }

  ghost function MessageFor(d: FormData, key: string): Option<string> {
    if key == FullNameKey then FullNameMessage(d.fullName)
    else if key == ContactNumberKey then ContactNumberMessage(d.contactNumber)
    else if key == EmailKey then EmailMessage(d.email)
    else if key == DateOfBirthKey then DateOfBirthMessage(d.day, d.month, d.year)
    else if key == PasswordKey then PasswordMessage(d.password)
    else if key == ConfirmPasswordKey then ConfirmPasswordMessage(d.password, d.confirmPassword)
    else None
  }

  /** The validator's result: one entry for each known key whose rule fails. */
  ghost function ValidationErrors(d: FormData): map<string, string> {
    map k | k in ErrorKeys && MessageFor(d, k).Some? :: MessageFor(d, k).value
  }

  /** Every rule holds. */
  ghost predicate FormIsValid(d: FormData) {
    && !AllWhitespace(d.fullName)
    && IsTenAsciiDigits(d.contactNumber)
    && HasAtDot(d.email)
    && !AllWhitespace(d.day) && !AllWhitespace(d.month) && !AllWhitespace(d.year)
    && PasswordPatternFound(d.password)
    && d.confirmPassword == d.password
  }

  // -------------------------------------------------------- the validator

  /** The validator's result restricted to the keys in `keys`. */
  ghost function ErrorsOn(d: FormData, keys: set<string>): map<string, string> {
    map k | k in keys && k in ErrorKeys && MessageFor(d, k).Some? :: MessageFor(d, k).value
  }

  /** Checking one more key adds its entry exactly when its rule fails. */
  lemma ErrorsOnAdd(d: FormData, keys: set<string>, k: string)
    requires k in ErrorKeys
    ensures ErrorsOn(d, keys + {k}) ==
            if MessageFor(d, k).Some? then ErrorsOn(d, keys)[k := MessageFor(d, k).value]
            else ErrorsOn(d, keys)
  {
  }

  /** The source's full-name check decides what FullNameMessage specifies. */
  lemma FullNameCheck(d: FormData)
    ensures MessageFor(d, FullNameKey) ==
            if IsBlank(d.fullName) then Some(FullNameRequired) else None
  {
  }

  /** The source's contact-number checks decide what ContactNumberMessage specifies. */
  lemma ContactNumberCheck(d: FormData)
    ensures MessageFor(d, ContactNumberKey) ==
            if IsBlank(d.contactNumber) then Some(ContactNumberRequired)
            else if !IsTenAsciiDigits(d.contactNumber) then Some(ContactNumberFormat)
            else None
  {
  }

  /** The source's email checks, which test the regular expression, decide
      what EmailMessage specifies in terms of `@` and `.` positions. */
  lemma EmailCheck(d: FormData)
    ensures MessageFor(d, EmailKey) ==
            if IsBlank(d.email) then Some(EmailRequired)
            else if !EmailPatternFound(d.email) then Some(EmailFormat)
            else None
  {
  }

  /** The source's date check decides what DateOfBirthMessage specifies. */
  lemma DateOfBirthCheck(d: FormData)
    ensures MessageFor(d, DateOfBirthKey) ==
            if IsBlank(d.day) || IsBlank(d.month) || IsBlank(d.year)
            then Some(DateOfBirthRequired) else None
  {
  }

  /** The source's password checks decide what PasswordMessage specifies. */
  lemma PasswordCheck(d: FormData)
    ensures MessageFor(d, PasswordKey) ==
            if IsBlank(d.password) then Some(PasswordRequired)
            else if !PasswordPatternFound(d.password) then Some(PasswordFormat)
            else None
  {
  }

  /** All six keys together are the whole validator. */
  lemma ErrorsOnAllKeys(d: FormData)
    ensures ErrorsOn(d, {} + {FullNameKey} + {ContactNumberKey} + {EmailKey} + {DateOfBirthKey}
                        + {PasswordKey} + {ConfirmPasswordKey}) == ValidationErrors(d)
  {
    assert {} + {FullNameKey} + {ContactNumberKey} + {EmailKey} + {DateOfBirthKey}
           + {PasswordKey} + {ConfirmPasswordKey} == ErrorKeys;
  }

  /** The validation block of the submit handler: starts from an empty
      dictionary and sets one key per failing check, in source order. */
  method Validate(d: FormData) returns (errors: map<string, string>)
    ensures errors == ValidationErrors(d)
  {
    ghost var checked: set<string> := {};
    errors := map[];
    assert errors == ErrorsOn(d, checked);

    if IsBlank(d.fullName) {
      errors := errors[FullNameKey := FullNameRequired];
    }
    assert errors == ErrorsOn(d, checked + {FullNameKey}) by {
      FullNameCheck(d);
      ErrorsOnAdd(d, checked, FullNameKey);
    }
    checked := checked + {FullNameKey};

    if IsBlank(d.contactNumber) {
      errors := errors[ContactNumberKey := ContactNumberRequired];
    } else if !IsTenAsciiDigits(d.contactNumber) {
      errors := errors[ContactNumberKey := ContactNumberFormat];
    }
    assert errors == ErrorsOn(d, checked + {ContactNumberKey}) by {
      ContactNumberCheck(d);
      ErrorsOnAdd(d, checked, ContactNumberKey);
    }
    checked := checked + {ContactNumberKey};

    if IsBlank(d.email) {
      errors := errors[EmailKey := EmailRequired];
    } else if !EmailPatternFound(d.email) {
      errors := errors[EmailKey := EmailFormat];
    }
    assert errors == ErrorsOn(d, checked + {EmailKey}) by {
      EmailCheck(d);
      ErrorsOnAdd(d, checked, EmailKey);
    }
    checked := checked + {EmailKey};

    if IsBlank(d.day) || IsBlank(d.month) || IsBlank(d.year) {
      errors := errors[DateOfBirthKey := DateOfBirthRequired];
    }
    assert errors == ErrorsOn(d, checked + {DateOfBirthKey}) by {
      DateOfBirthCheck(d);
      ErrorsOnAdd(d, checked, DateOfBirthKey);
    }
    checked := checked + {DateOfBirthKey};

    if IsBlank(d.password) {
      errors := errors[PasswordKey := PasswordRequired];
    } else if !PasswordPatternFound(d.password) {
      errors := errors[PasswordKey := PasswordFormat];
    }
    assert errors == ErrorsOn(d, checked + {PasswordKey}) by {
      PasswordCheck(d);
      ErrorsOnAdd(d, checked, PasswordKey);
    }
    checked := checked + {PasswordKey};

    if d.confirmPassword != d.password {
      errors := errors[ConfirmPasswordKey := PasswordMismatch];
    }
    assert errors == ErrorsOn(d, checked + {ConfirmPasswordKey}) by {
      ErrorsOnAdd(d, checked, ConfirmPasswordKey);
    }
    checked := checked + {ConfirmPasswordKey};
    ErrorsOnAllKeys(d);
  }

  // ---------------------------------------- what the validator guarantees

  /** The entry of a known key is its rule's message, if any. */
  lemma EntryOf(d: FormData, k: string)
    requires k in ErrorKeys
    ensures k in ValidationErrors(d) <==> MessageFor(d, k).Some?
    ensures k in ValidationErrors(d) ==> ValidationErrors(d)[k] == MessageFor(d, k).value
  {
  }

  /** Only the six known keys are ever written: never `day`, `month` or
      `year`, so the inputs' own error displays for those never show. */
  lemma ErrorKeysKnown(d: FormData)
    ensures ValidationErrors(d).Keys <= ErrorKeys
    ensures "day" !in ValidationErrors(d) && "month" !in ValidationErrors(d)
            && "year" !in ValidationErrors(d)
  {
  }

  /** Full name: an error, "required", exactly when it is empty after trimming. */
  lemma FullNameRule(d: FormData)
    ensures FullNameKey in ValidationErrors(d) <==> Trim(d.fullName) == []
    ensures FullNameKey in ValidationErrors(d) ==>
            ValidationErrors(d)[FullNameKey] == FullNameRequired
  {
    FullNameCheck(d);
  }

  /** Contact number: "required" when blank after trimming; otherwise the
      untrimmed value must be exactly ten ASCII digits, so padding fails. */
  lemma ContactNumberRule(d: FormData)
    ensures ContactNumberKey !in ValidationErrors(d) <==> IsTenAsciiDigits(d.contactNumber)
    ensures IsBlank(d.contactNumber) ==>
            ContactNumberKey in ValidationErrors(d)
            && ValidationErrors(d)[ContactNumberKey] == ContactNumberRequired
    ensures !IsBlank(d.contactNumber) && !IsTenAsciiDigits(d.contactNumber) ==>
            ContactNumberKey in ValidationErrors(d)
            && ValidationErrors(d)[ContactNumberKey] == ContactNumberFormat
  {
    ContactNumberCheck(d);
  }

  /** Email: "required" when blank after trimming; otherwise an error exactly
      when no substring matches the pattern, which is when no `@` and later
      `.` sit as AtDotAt describes. */
  lemma EmailRule(d: FormData)
    ensures EmailKey !in ValidationErrors(d) <==> EmailPatternFound(d.email)
    ensures EmailKey !in ValidationErrors(d) <==> HasAtDot(d.email)
    ensures IsBlank(d.email) ==>
            EmailKey in ValidationErrors(d) && ValidationErrors(d)[EmailKey] == EmailRequired
    ensures !IsBlank(d.email) && !EmailPatternFound(d.email) ==>
            EmailKey in ValidationErrors(d) && ValidationErrors(d)[EmailKey] == EmailFormat
  {
    EmailCheck(d);
    if HasAtDot(d.email) {
      EmailPatternNotBlank(d.email);
    }
  }

  /** Date of birth: one error under `date_of_birth` exactly when any of day,
      month and year is blank after trimming. */
  lemma DateOfBirthRule(d: FormData)
    ensures DateOfBirthKey in ValidationErrors(d) <==>
            Trim(d.day) == [] || Trim(d.month) == [] || Trim(d.year) == []
    ensures DateOfBirthKey in ValidationErrors(d) ==>
            ValidationErrors(d)[DateOfBirthKey] == DateOfBirthRequired
  {
    DateOfBirthCheck(d);
  }

  /** Password: "required" when blank after trimming; otherwise an error, the
      strength message, exactly when the pattern finds no match. A password
      that passes always has eight characters and a digit, a lower-case and an
      upper-case letter; on a single line that is also enough. */
  lemma PasswordRule(d: FormData)
    ensures IsBlank(d.password) ==>
            PasswordKey in ValidationErrors(d) && ValidationErrors(d)[PasswordKey] == PasswordRequired
    ensures PasswordKey !in ValidationErrors(d) <==> PasswordPatternFound(d.password)
    ensures !IsBlank(d.password) && !PasswordPatternFound(d.password) ==>
            PasswordKey in ValidationErrors(d) && ValidationErrors(d)[PasswordKey] == PasswordFormat
    ensures PasswordKey !in ValidationErrors(d) ==>
            |d.password| >= 8 && Contains(d.password, Digit)
            && Contains(d.password, Lower) && Contains(d.password, Upper)
    ensures LineFree(d.password) ==>
            (PasswordKey !in ValidationErrors(d) <==>
             |d.password| >= 8 && Contains(d.password, Digit)
             && Contains(d.password, Lower) && Contains(d.password, Upper))
  {
    var p := d.password;
    PasswordCheck(d);
    EntryOf(d, PasswordKey);
    if LineFree(p) {
      PasswordPatternOneLine(p);
    }
    if Contains(p, Digit) {
      ContainsNotBlank(p, Digit);
    }
  }

  /** Confirmation: an error exactly when it differs from the password, what
      ever the password's own rule says; both empty gives no confirm error. */
  lemma ConfirmPasswordRule(d: FormData)
    ensures ConfirmPasswordKey in ValidationErrors(d) <==> d.confirmPassword != d.password
    ensures ConfirmPasswordKey in ValidationErrors(d) ==>
            ValidationErrors(d)[ConfirmPasswordKey] == PasswordMismatch
  {
  }

  /** No errors at all exactly when every rule holds. */
  lemma {:induction false} NoErrorsIffValid(d: FormData)
    ensures ValidationErrors(d) == map[] <==> FormIsValid(d)
  {
    var v := ValidationErrors(d);
    FullNameRule(d);
    ContactNumberRule(d);
    EmailRule(d);
    DateOfBirthRule(d);
    ConfirmPasswordRule(d);
    PasswordCheck(d);
    EntryOf(d, PasswordKey);
    if PasswordPatternFound(d.password) {
      ContainsNotBlank(d.password, Digit);
    }
    ErrorKeysKnown(d);
    var none := FullNameKey !in v && ContactNumberKey !in v && EmailKey !in v
                && DateOfBirthKey !in v && PasswordKey !in v && ConfirmPasswordKey !in v;
    assert none <==> FormIsValid(d);
    if none {
      NoKnownKeyIsEmpty(v);
    }
  }

  /** A dictionary over the known keys that holds none of them is empty. */
  lemma NoKnownKeyIsEmpty(v: map<string, string>)
    requires v.Keys <= ErrorKeys
    requires FullNameKey !in v && ContactNumberKey !in v && EmailKey !in v
    requires DateOfBirthKey !in v && PasswordKey !in v && ConfirmPasswordKey !in v
    ensures v == map[]
  {
    assert v.Keys == {};
  }

  /** The record the page starts with fails every rule but the confirmation:
      two empty passwords are equal. */
  lemma EmptyFormErrors()
    ensures ValidationErrors(EmptyForm) ==
            map[FullNameKey := FullNameRequired, ContactNumberKey := ContactNumberRequired,
                EmailKey := EmailRequired, DateOfBirthKey := DateOfBirthRequired,
                PasswordKey := PasswordRequired]
  {
    var v := ValidationErrors(EmptyForm);
    assert ConfirmPasswordKey !in v;
    assert v.Keys == {FullNameKey, ContactNumberKey, EmailKey, DateOfBirthKey, PasswordKey};
  }

  lemma ContactNumberExamples()
    ensures ContactNumberMessage("12345") == Some(ContactNumberFormat)
    ensures ContactNumberMessage(" 1234567890") == Some(ContactNumberFormat)
    ensures ContactNumberMessage("1234567890") == None
  {
    assert !IsWhitespace("12345"[0]);
    assert !IsWhitespace(" 1234567890"[1]);
    assert !IsWhitespace("1234567890"[0]);
  }

  lemma EmailExamples()
    ensures EmailMessage("foo") == Some(EmailFormat)
    ensures EmailMessage("foo@bar.com") == None
  {
    assert !IsWhitespace("foo"[0]);
    assert !HasAtDot("foo");
    var s := "foo@bar.com";
    assert AtDotAt(s, 3, 7);
  }

  lemma PasswordExamples()
    ensures PasswordMessage("abc") == Some(PasswordFormat)
    ensures PasswordMessage("Abcdefg1") == None
  {
    assert !IsWhitespace("abc"[0]);
    var s := "Abcdefg1";
    assert !IsWhitespace(s[0]);
    assert InClass(s[7], Digit) && InClass(s[1], Lower) && InClass(s[0], Upper);
    PasswordPatternOneLine(s);
  }

  /** The keys whose rule reads field `f`. */
  function KeysReading(f: Field): set<string> {
    match f
    case FullName => {FullNameKey}
    case ContactNumber => {ContactNumberKey}
    case Email => {EmailKey}
    case Day | Month | Year => {DateOfBirthKey}
    case Password => {PasswordKey, ConfirmPasswordKey}
    case ConfirmPassword => {ConfirmPasswordKey}
  }

  /** Editing one input changes at most the entries of the keys that read it. */
  lemma EditKeepsOtherErrors(d: FormData, f: Field, v: string, k: string)
    requires k !in KeysReading(f)
    ensures k in ValidationErrors(WithField(d, f, v)) <==> k in ValidationErrors(d)
    ensures k in ValidationErrors(d) ==> ValidationErrors(WithField(d, f, v))[k] == ValidationErrors(d)[k]
  {
    var e := WithField(d, f, v);
    assert MessageFor(e, k) == MessageFor(d, k);
  }

  // ------------------------------------------------------------ the page

  /** The page component's state: the form record, the error dictionary the
      inputs display, and the bodies of the requests it has sent, in order. */
  class RegistrationPage {
    var formData: FormData
    var errors: map<string, string>
    var requests: seq<FormData>

    /** Errors only ever hold the validator's keys, and a request is sent only for a valid record. */
    ghost predicate Valid()
      reads this
    {
      && errors.Keys <= ErrorKeys
      && forall i :: 0 <= i < |requests| ==> ValidationErrors(requests[i]) == map[]
    }

    constructor ()
      ensures Valid()
      ensures formData == EmptyForm && errors == map[] && requests == []
    {
      formData := EmptyForm;
      errors := map[];
      requests := [];
    }

    /** handleChange: one field of the record takes the input's value. */
    method HandleChange(f: Field, value: string)
      requires Valid()
      modifies this
      ensures Valid()
      ensures Get(formData, f) == value
      ensures forall g :: g != f ==> Get(formData, g) == Get(old(formData), g)
      ensures errors == old(errors) && requests == old(requests)
    {
      formData := WithField(formData, f, value);
    }

    /** handleSubmit without the network part: validate, then either show the
        errors and send nothing, or clear the errors and send the record. */
    method HandleSubmit()
      requires Valid()
      modifies this
      ensures Valid()
      ensures formData == old(formData)
      ensures errors == ValidationErrors(formData)
      ensures errors != map[] ==> requests == old(requests)
      ensures errors == map[] ==> requests == old(requests) + [formData]
    {
      var validationErrors := Validate(formData);
      if |validationErrors| > 0 {
        errors := validationErrors;
      } else {
        errors := map[];
        requests := requests + [formData];
      }
    }
  }
}

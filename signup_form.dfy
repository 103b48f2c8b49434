/** The signup page's form: field edits, the field-by-field validator and the
    submit guard in front of the session's `signup`. */
module SignupForm {
  import opened Text

  /** The named inputs of the form (their `name` attributes). */
  datatype Field = NameField | EmailField | PasswordField | ConfirmPasswordField | UserTypeField

  datatype FormData = FormData(name: string, email: string, password: string, confirmPassword: string, userType: string)

  const InitialForm := FormData("", "", "", "", "student")

  /** The values of the user-type select; 'admin' is not among them. */
  const UserTypeOptions: seq<string> := ["student", "staff", "outsider"]

  lemma AdminNotSelectable()
    ensures "admin" !in UserTypeOptions && |UserTypeOptions| == 3
  {
  }

  /** s[at] is '@' with a non-space character before it. */
  ghost predicate AtSign(s: string, at: nat) {
    1 <= at < |s| && s[at] == '@' && !IsSpace(s[at - 1])
  }

  /** s[dot] is '.', s[start..dot] is a non-empty run without white space, and a
      non-space character follows the dot. */
  predicate DotEnd(s: string, start: nat, dot: nat) {
    start < dot && dot + 1 < |s| && NoSpaceIn(s, start, dot) && s[dot] == '.' && !IsSpace(s[dot + 1])
  }

  /** Some '.' closes a non-space run begun at `start`. */
  ghost predicate HasDotEnd(s: string, start: nat) {
    exists dot: nat :: DotEnd(s, start, dot)
  }

  /** The regular expression `\S+@\S+\.\S+`, unanchored: s[p..at] is a non-space
      run, s[at] is '@', s[at+1..dot] a non-space run, s[dot] is '.', and
      s[dot+1..q] a non-space run; all three runs non-empty. */
  ghost predicate EmailShape(s: string, p: nat, at: nat, dot: nat, q: nat) {
    p < at && at + 1 < dot && dot + 1 < q <= |s|
    && NoSpaceIn(s, p, at) && s[at] == '@'
    && NoSpaceIn(s, at + 1, dot) && s[dot] == '.'
    && NoSpaceIn(s, dot + 1, q)
  }

  ghost predicate MatchesEmailPattern(s: string) {
    exists p: nat, at: nat, dot: nat, q: nat :: EmailShape(s, p, at, dot, q)
  }

  /** Scans on from s[k] for a '.' that closes the run begun at `start`. */
  function DotAfter(s: string, start: nat, k: nat): (r: bool)
    requires start <= k <= |s| && NoSpaceIn(s, start, k)
    ensures r <==> exists dot: nat :: k <= dot && DotEnd(s, start, dot)
    decreases |s| - k
  {
    if k == |s| then false
    else if IsSpace(s[k]) then
      assert forall dot: nat :: k <= dot ==> !DotEnd(s, start, dot);
      false
    else if s[k] == '.' && start < k && k + 1 < |s| && !IsSpace(s[k + 1]) then
      assert DotEnd(s, start, k);
      true
    else
      assert !DotEnd(s, start, k);
      DotAfter(s, start, k + 1)
  }

  /** Scans on from s[at] for an '@' that starts a match. */
  function AtFrom(s: string, at: nat): (r: bool)
    ensures r <==> exists a: nat :: at <= a && AtSign(s, a) && HasDotEnd(s, a + 1)
    decreases |s| - at
  {
    if at >= |s| then false
    else
      var here := 1 <= at && s[at] == '@' && !IsSpace(s[at - 1]) && DotAfter(s, at + 1, at + 1);
      assert here <==> AtSign(s, at) && HasDotEnd(s, at + 1);
      here || AtFrom(s, at + 1)
  }

  /** `/\S+@\S+\.\S+/.test(s)`. */
  function MatchesEmail(s: string): (r: bool)
    ensures r <==> MatchesEmailPattern(s)
  {
    ScanFindsPattern(s);
    AtFrom(s, 0)
  }

  /** The scan from the first character finds a match exactly when the pattern occurs. */
  lemma ScanFindsPattern(s: string)
    ensures AtFrom(s, 0) <==> MatchesEmailPattern(s)
  {
    if AtFrom(s, 0) {
      var a: nat :| AtSign(s, a) && HasDotEnd(s, a + 1);
      var dot: nat :| DotEnd(s, a + 1, dot);
      assert EmailShape(s, a - 1, a, dot, dot + 2);
    }
    if MatchesEmailPattern(s) {
      var p: nat, at: nat, dot: nat, q: nat :| EmailShape(s, p, at, dot, q);
      assert DotEnd(s, at + 1, dot);
      assert AtSign(s, at) && HasDotEnd(s, at + 1);
    }
  }

  lemma EmailExamples()
    ensures MatchesEmail("a@b.c") && MatchesEmail("  x y@mlrit.ac.in ")
    ensures !MatchesEmail("a@b") && !MatchesEmail("a @b.c") && !MatchesEmail("@b.c")
  {
    assert EmailShape("a@b.c", 0, 1, 3, 5);
    assert EmailShape("  x y@mlrit.ac.in ", 4, 5, 11, 13);
    forall p: nat, at: nat, dot: nat, q: nat ensures !EmailShape("a@b", p, at, dot, q) { }
    forall p: nat, at: nat, dot: nat, q: nat ensures !EmailShape("a @b.c", p, at, dot, q) {
      if EmailShape("a @b.c", p, at, dot, q) { assert at == 2 && IsSpace("a @b.c"[1]); }
    }
    forall p: nat, at: nat, dot: nat, q: nat ensures !EmailShape("@b.c", p, at, dot, q) { }
  }

  /** The validator's messages; `MessageText` is what the page shows. */
  datatype Message = NameRequired | NameTooShort | EmailRequired | EmailInvalid | PasswordRequired | PasswordTooShort | ConfirmRequired | PasswordsDiffer

  function MessageText(m: Message): string {
    match m
    case NameRequired => "Name is required"
    case NameTooShort => "Name must be at least 2 characters"
    case EmailRequired => "Email is required"
    case EmailInvalid => "Please enter a valid email"
    case PasswordRequired => "Password is required"
    case PasswordTooShort => "Password must be at least 6 characters"
    case ConfirmRequired => "Please confirm your password"
    case PasswordsDiffer => "Passwords do not match"
  }

  /** The message the validator gives a field, if any. */
  function FieldError(f: FormData, fld: Field): (r: Option<Message>)
    ensures fld == NameField ==>
              (r.None? <==> |Trim(f.name)| >= 2) && (r == Some(NameRequired) <==> Trim(f.name) == "")
    ensures fld == EmailField ==>
              (r.None? <==> f.email != "" && MatchesEmail(f.email)) && (r == Some(EmailRequired) <==> f.email == "")
    ensures fld == PasswordField ==>
              (r.None? <==> |f.password| >= 6) && (r == Some(PasswordRequired) <==> f.password == "")
    ensures fld == ConfirmPasswordField ==>
              (r.None? <==> f.confirmPassword != "" && f.confirmPassword == f.password) &&
              (r == Some(ConfirmRequired) <==> f.confirmPassword == "")
    ensures fld == UserTypeField ==> r.None?
  {
    match fld
    case NameField =>
      if Trim(f.name) == "" then Some(NameRequired)
      else if |Trim(f.name)| < 2 then Some(NameTooShort)
      else None
    case EmailField =>
      if f.email == "" then Some(EmailRequired)
      else if !MatchesEmail(f.email) then Some(EmailInvalid)
      else None
    case PasswordField =>
      if f.password == "" then Some(PasswordRequired)
      else if |f.password| < 6 then Some(PasswordTooShort)
      else None
    case ConfirmPasswordField =>
      if f.confirmPassword == "" then Some(ConfirmRequired)
      else if f.password != f.confirmPassword then Some(PasswordsDiffer)
      else None
    case UserTypeField => None
  }

  /** The form passes exactly when the trimmed name has two characters or more,
      the email matches the pattern, the password has six or more and the
      confirmation repeats it. */
  lemma FormValidIff(f: FormData)
    ensures (forall fld :: FieldError(f, fld).None?) <==>
            |Trim(f.name)| >= 2 && MatchesEmailPattern(f.email) && |f.password| >= 6 && f.confirmPassword == f.password
  {
    if MatchesEmailPattern(f.email) {
      assert f.email != "";
    }
    if forall fld :: FieldError(f, fld).None? {
      assert FieldError(f, NameField).None? && FieldError(f, EmailField).None?;
      assert FieldError(f, PasswordField).None? && FieldError(f, ConfirmPasswordField).None?;
    }
  }

  /** An error map agreeing with the validator on every field is empty exactly
      when no field has a message. */
  lemma EmptyIffNoMessage(f: FormData, errors: map<Field, Message>)
    requires Agrees(f, errors, NameField) && Agrees(f, errors, EmailField)
    requires Agrees(f, errors, PasswordField) && Agrees(f, errors, ConfirmPasswordField)
    requires UserTypeField !in errors
    ensures errors == map[] <==> forall fld :: FieldError(f, fld).None?
  {
    if forall fld :: FieldError(f, fld).None? {
      forall fld ensures fld !in errors {
        match fld
        case NameField =>
        case EmailField =>
        case PasswordField =>
        case ConfirmPasswordField =>
        case UserTypeField =>
      }
      assert errors == map[];
    }
  }

  /** `errors` holds for `fld` exactly the message the validator gives it. */
  ghost predicate Agrees(f: FormData, errors: map<Field, Message>, fld: Field) {
    (fld in errors <==> FieldError(f, fld).Some?) && (fld in errors ==> errors[fld] == FieldError(f, fld).value)
  }

  /** `validateForm`: fills `newErrors` field by field; the form is valid when no
      field got a message. A field has at most one message, the first rule of its
      chain that fails. */
  method ValidateForm(f: FormData) returns (errors: map<Field, Message>, valid: bool)
    ensures Agrees(f, errors, NameField) && Agrees(f, errors, EmailField)
    ensures Agrees(f, errors, PasswordField) && Agrees(f, errors, ConfirmPasswordField)
    ensures UserTypeField !in errors
    ensures valid <==> errors == map[]
  {
    var newErrors: map<Field, Message> := map[];
    var name := Trim(f.name);
    if name == "" {
      newErrors := newErrors[NameField := NameRequired];
    } else if |name| < 2 {
      newErrors := newErrors[NameField := NameTooShort];
    }
    if f.email == "" {
      newErrors := newErrors[EmailField := EmailRequired];
    } else if !MatchesEmail(f.email) {
      newErrors := newErrors[EmailField := EmailInvalid];
    }
    if f.password == "" {
      newErrors := newErrors[PasswordField := PasswordRequired];
    } else if |f.password| < 6 {
      newErrors := newErrors[PasswordField := PasswordTooShort];
    }
    if f.confirmPassword == "" {
      newErrors := newErrors[ConfirmPasswordField := ConfirmRequired];
    } else if f.password != f.confirmPassword {
      newErrors := newErrors[ConfirmPasswordField := PasswordsDiffer];
    }
    errors := newErrors;
    valid := errors == map[];
  }

  /** The `errors` state of the page: each field's message as shown. */
  function ErrorTexts(errors: map<Field, Message>): (r: map<Field, string>)
    ensures r.Keys == errors.Keys
    ensures forall fld :: fld in r ==> r[fld] != "" && r[fld] == MessageText(errors[fld])
  {
    map fld | fld in errors :: MessageText(errors[fld])
  }

  /** Writes one field of the form. */
  function SetField(f: FormData, fld: Field, value: string): FormData {
    match fld
    case NameField => f.(name := value)
    case EmailField => f.(email := value)
    case PasswordField => f.(password := value)
    case ConfirmPasswordField => f.(confirmPassword := value)
    case UserTypeField => f.(userType := value)
  }

  function Get(f: FormData, fld: Field): string {
    match fld
    case NameField => f.name
    case EmailField => f.email
    case PasswordField => f.password
    case ConfirmPasswordField => f.confirmPassword
    case UserTypeField => f.userType
  }

  /** `handleChange`: the edited field takes the new value and its message, when
      it has one, is blanked; every other field and every other message is kept. */
  function HandleChange(f: FormData, errors: map<Field, string>, fld: Field, value: string)
    : (r: (FormData, map<Field, string>))
    ensures Get(r.0, fld) == value
    ensures forall g :: g != fld ==> Get(r.0, g) == Get(f, g)
    ensures r.1.Keys == errors.Keys
    ensures fld in errors ==> r.1[fld] == ""
    ensures forall g :: g in errors && g != fld ==> r.1[g] == errors[g]
  {
    var errors' := if fld in errors && errors[fld] != "" then errors[fld := ""] else errors;
    (SetField(f, fld, value), errors')
  }

  /** The arguments `handleSubmit` passes to `signup`. */
  datatype SignupCall = SignupCall(name: string, email: string, password: string, userType: string)

  /** `handleSubmit`: `signup` is called only when validation passes, with the
      trimmed name and the other fields as typed. */
  method HandleSubmit(f: FormData) returns (errors: map<Field, Message>, call: Option<SignupCall>)
    ensures call.Some? <==> errors == map[]
    ensures call.Some? <==> |Trim(f.name)| >= 2 && MatchesEmailPattern(f.email) && |f.password| >= 6 && f.confirmPassword == f.password
    ensures call.Some? ==> call.value == SignupCall(Trim(f.name), f.email, f.password, f.userType)
  {
    var valid;
    errors, valid := ValidateForm(f);
    EmptyIffNoMessage(f, errors);
    FormValidIff(f);
    if !valid {
      return errors, None;
    }
    call := Some(SignupCall(Trim(f.name), f.email, f.password, f.userType));
  }
}

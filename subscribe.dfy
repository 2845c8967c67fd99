/** The two-step sign-up form: field edits with error clearing, the two
    step validators with their messages, the step transitions and the
    submit guard. */
module Subscribe {
  import opened Common
  import Text

  datatype Role = NoRole | Client | Vendeur

  /** The role string the form holds and sends. */
  function RoleName(r: Role): string {
    match r
    case NoRole => ""
    case Client => "client"
    case Vendeur => "vendeur"
  }

  datatype FormData = FormData(
    firstName: string,
    lastName: string,
    email: string,
    password: string,
    confirmPassword: string,
    phone: string,
    role: Role,
    acceptTerms: bool)

  /** The keys of the error record. */
  datatype Field =
    | FirstName | LastName | Email | Password | ConfirmPassword | Phone
    | RoleField | AcceptTerms | Submit

  /** The error record: a field maps to its message; an empty message
      counts as no error (it is falsy). */
  type FormErrors = map<Field, string>

  const FirstNameRequired := "Le prénom est requis"
  const LastNameRequired := "Le nom est requis"
  const EmailRequired := "L'email est requis"
  const EmailInvalid := "Email invalide"
  const RoleRequired := "Veuillez choisir un type de compte"
  const PasswordRequired := "Le mot de passe est requis"
  const PasswordTooShort := "Le mot de passe doit contenir au moins 8 caractères"
  const PasswordMismatch := "Les mots de passe ne correspondent pas"
  const TermsRequired := "Vous devez accepter les conditions d'utilisation"
  const SubmitFailed := "Une erreur est survenue lors de l'inscription"
  const MinPasswordLength := 8

  const EmptyForm := FormData("", "", "", "", "", "", NoRole, false)

  /** The text inputs of the form. */
  predicate IsTextField(f: Field) {
    f in {FirstName, LastName, Email, Phone, Password, ConfirmPassword}
  }

  /** A change event from one of the form's inputs: a text input's name and
      value, or the terms checkbox's state. */
  datatype InputEvent = TextInput(name: Field, value: string) | TermsCheckbox(checked: bool)

  predicate ValidEvent(e: InputEvent) {
    e.TermsCheckbox? || IsTextField(e.name)
  }

  function FieldOf(e: InputEvent): Field {
    if e.TextInput? then e.name else AcceptTerms
  }

  /** The value of text field `f`. */
  function TextOf(fd: FormData, f: Field): string
    requires IsTextField(f)
  {
    match f
    case FirstName => fd.firstName
    case LastName => fd.lastName
    case Email => fd.email
    case Phone => fd.phone
    case Password => fd.password
    case ConfirmPassword => fd.confirmPassword
  }

  /** `{ ...formData, [name]: type === "checkbox" ? checked : value }`:
      the event's field takes its value and no other field changes. */
  function WithInput(fd: FormData, e: InputEvent): (r: FormData)
    requires ValidEvent(e)
    ensures e.TextInput? ==> TextOf(r, e.name) == e.value
    ensures e.TextInput? ==> r.acceptTerms == fd.acceptTerms
    ensures e.TermsCheckbox? ==> r.acceptTerms == e.checked
    ensures forall f :: IsTextField(f) && f != FieldOf(e) ==> TextOf(r, f) == TextOf(fd, f)
    ensures r.role == fd.role
  {
    match e
    case TermsCheckbox(checked) => fd.(acceptTerms := checked)
    case TextInput(name, value) =>
      match name
      case FirstName => fd.(firstName := value)
      case LastName => fd.(lastName := value)
      case Email => fd.(email := value)
      case Phone => fd.(phone := value)
      case Password => fd.(password := value)
      case ConfirmPassword => fd.(confirmPassword := value)
  }

  /** `if (errors[name]) setErrors({ ...errors, [name]: "" })`: a set error
      of that field is blanked, and no other error changes. */
  function ClearError(errors: FormErrors, f: Field): (r: FormErrors)
    ensures r.Keys == errors.Keys
    ensures forall g :: g in errors && g != f ==> r[g] == errors[g]
    ensures f in r ==> r[f] == ""
  {
    if f in errors && errors[f] != "" then errors[f := ""] else errors
  }

  /** At `i` an `@` and at `j` a `.`, with a non-space character before
      the `@`, only non-space characters (at least one) between them, and a
      non-space character after the `.`. */
  predicate EmailShapeAt(s: string, i: int, j: int) {
    && 1 <= i && i + 1 < j && j + 1 < |s|
    && s[i] == '@' && s[j] == '.'
    && !Text.IsSpace(s[i - 1]) && !Text.IsSpace(s[j + 1])
    && (forall k :: i < k < j ==> !Text.IsSpace(s[k]))
  }

  /** `/\S+@\S+\.\S+/.test(s)`: the pattern matches somewhere in `s`. */
  predicate LooksLikeEmail(s: string) {
    exists i, j :: 0 <= i < j < |s| && EmailShapeAt(s, i, j)
  }

  /** An address the pattern accepts is never blank, so the "required" and
      "invalid" messages exclude each other. */
  lemma EmailPatternImpliesNotBlank(s: string)
    requires LooksLikeEmail(s)
    ensures !Text.IsBlank(s)
  {
    var i, j :| 0 <= i < j < |s| && EmailShapeAt(s, i, j);
    assert !Text.IsSpace(s[i]);
  }

  /** What step 1 requires: both names not blank, an e-mail that is not
      blank and matches the pattern, and a chosen role. */
  predicate Step1Valid(fd: FormData) {
    && !Text.IsBlank(fd.firstName)
    && !Text.IsBlank(fd.lastName)
    && !Text.IsBlank(fd.email) && LooksLikeEmail(fd.email)
    && fd.role != NoRole
  }

  /** `m` with message `msg` set on field `f` when `failed` holds. */
  function Flagged(m: FormErrors, failed: bool, f: Field, msg: string): (r: FormErrors)
    ensures r.Keys == if failed then m.Keys + {f} else m.Keys
    ensures forall g :: g in m && g != f ==> r[g] == m[g]
    ensures failed ==> r[f] == msg
  {
    if failed then m[f := msg] else m
  }

  /** The e-mail check: "required" when blank, "invalid" only otherwise. */
  function EmailFlagged(m: FormErrors, blank: bool, matches: bool): (r: FormErrors)
    ensures r.Keys == if blank || !matches then m.Keys + {Email} else m.Keys
    ensures forall g :: g in m && g != Email ==> r[g] == m[g]
    ensures blank ==> r[Email] == EmailRequired
    ensures !blank && !matches ==> r[Email] == EmailInvalid
  {
    if blank then m[Email := EmailRequired]
    else if !matches then m[Email := EmailInvalid]
    else m
  }

  /** The errors `validateStep1` leaves for the form `fd`: one message per
      failed check, the e-mail getting "required" when blank and "invalid"
      only otherwise. */
  function Step1Errors(fd: FormData): (m: FormErrors)
    ensures m.Keys <= {FirstName, LastName, Email, RoleField}
    ensures FirstName in m <==> Text.IsBlank(fd.firstName)
    ensures LastName in m <==> Text.IsBlank(fd.lastName)
    ensures Email in m <==> Text.IsBlank(fd.email) || !LooksLikeEmail(fd.email)
    ensures RoleField in m <==> fd.role == NoRole
    ensures FirstName in m ==> m[FirstName] == FirstNameRequired
    ensures LastName in m ==> m[LastName] == LastNameRequired
    ensures Email in m ==> m[Email] == (if Text.IsBlank(fd.email) then EmailRequired else EmailInvalid)
    ensures RoleField in m ==> m[RoleField] == RoleRequired
    ensures m == map[] <==> Step1Valid(fd)
  {
    var m1 := Flagged(map[], Text.IsBlank(fd.firstName), FirstName, FirstNameRequired);
    var m2 := Flagged(m1, Text.IsBlank(fd.lastName), LastName, LastNameRequired);
    var m3 := EmailFlagged(m2, Text.IsBlank(fd.email), LooksLikeEmail(fd.email));
    var m := Flagged(m3, fd.role == NoRole, RoleField, RoleRequired);
    assert m == map[] <==> m.Keys == {};
    m
  }

  /** The blank-e-mail check is subsumed by the pattern: step 1 passes
      exactly when the names are not blank, the e-mail matches and a role is
      chosen, and the e-mail field is flagged exactly when it does not match. */
  lemma EmailBlankCheckSubsumed(fd: FormData)
    ensures Step1Valid(fd) <==>
              !Text.IsBlank(fd.firstName) && !Text.IsBlank(fd.lastName) && LooksLikeEmail(fd.email)
              && fd.role != NoRole
    ensures Email in Step1Errors(fd) <==> !LooksLikeEmail(fd.email)
  {
    if LooksLikeEmail(fd.email) {
      EmailPatternImpliesNotBlank(fd.email);
    }
  }

  /** `!s.trim()`: the trimmed text is empty exactly when `s` is blank. */
  method TrimsToEmpty(s: string) returns (b: bool)
    ensures b <==> Text.IsBlank(s)
  {
    b := Text.Trim(s) == "";
  }

  /** What step 2 requires: a password of at least 8 characters, equal to
      its confirmation, and the terms accepted. */
  predicate Step2Valid(fd: FormData) {
    && fd.password != "" && |fd.password| >= MinPasswordLength
    && fd.password == fd.confirmPassword
    && fd.acceptTerms
  }

  /** The errors `validateStep2` records: "required" for an empty password,
      else the length message below 8 characters; the mismatch message
      exactly when the confirmation differs; the terms message exactly when
      they are not accepted. None at all exactly when step 2 is valid. */
  function Step2Errors(fd: FormData): (m: FormErrors)
    ensures m.Keys <= {Password, ConfirmPassword, AcceptTerms}
    ensures Password in m <==> |fd.password| < MinPasswordLength
    ensures Password in m ==> m[Password] == (if fd.password == "" then PasswordRequired else PasswordTooShort)
    ensures ConfirmPassword in m <==> fd.password != fd.confirmPassword
    ensures ConfirmPassword in m ==> m[ConfirmPassword] == PasswordMismatch
    ensures AcceptTerms in m <==> !fd.acceptTerms
    ensures AcceptTerms in m ==> m[AcceptTerms] == TermsRequired
    ensures m == map[] <==> Step2Valid(fd)
  {
    var m1 := Flagged(map[], |fd.password| < MinPasswordLength, Password,
                      if fd.password == "" then PasswordRequired else PasswordTooShort);
    var m2 := Flagged(m1, fd.password != fd.confirmPassword, ConfirmPassword, PasswordMismatch);
    var m := Flagged(m2, !fd.acceptTerms, AcceptTerms, TermsRequired);
    assert m == map[] <==> m.Keys == {};
    m
  }

  /** The registration request body. */
  datatype RegisterRequest = RegisterRequest(
    firstName: string, lastName: string, email: string, password: string, phone: string, role: string)

  function RequestOf(fd: FormData): (q: RegisterRequest)
    ensures q.firstName == fd.firstName && q.lastName == fd.lastName && q.email == fd.email
    ensures q.password == fd.password && q.phone == fd.phone && q.role == RoleName(fd.role)
  {
    RegisterRequest(fd.firstName, fd.lastName, fd.email, fd.password, fd.phone, RoleName(fd.role))
  }

  /** How the registration call ended: a response, or an error with the
      server's message if it sent one. */
  datatype SubmitOutcome = Responded | Failed(message: Option<string>)

  class SubscribePage {
    var step: int
    var formData: FormData
    var errors: FormErrors
    var isLoading: bool

    constructor ()
      ensures step == 1 && formData == EmptyForm && errors == map[] && !isLoading
    {
      step := 1;
      formData := EmptyForm;
      errors := map[];
      isLoading := false;
    }

    /** `handleChange` for one of the form's inputs. */
    method HandleChange(e: InputEvent)
      requires ValidEvent(e)
      modifies this
      ensures formData == WithInput(old(formData), e)
      ensures errors == ClearError(old(errors), FieldOf(e))
      ensures step == old(step) && isLoading == old(isLoading)
    {
      formData := WithInput(formData, e);
      var name := FieldOf(e);
      if name in errors && errors[name] != "" {
        errors := errors[name := ""];
      }
    }

    /** `handleRoleSelect`: set the role and blank a role error. */
    method HandleRoleSelect(r: Role)
      requires r != NoRole
      modifies this
      ensures formData == old(formData).(role := r)
      ensures errors == ClearError(old(errors), RoleField)
      ensures step == old(step) && isLoading == old(isLoading)
    {
      formData := formData.(role := r);
      if RoleField in errors && errors[RoleField] != "" {
        errors := errors[RoleField := ""];
      }
    }

    /** `validateStep1`: the errors are replaced by one message per failed
        requirement of step 1, and the answer is whether there is none. */
    method ValidateStep1() returns (ok: bool)
      modifies this
      ensures formData == old(formData) && step == old(step) && isLoading == old(isLoading)
      ensures errors == Step1Errors(formData)
      ensures ok <==> Step1Valid(formData)
      ensures ok <==> errors == map[]
    {
      var firstBlank := TrimsToEmpty(formData.firstName);
      var lastBlank := TrimsToEmpty(formData.lastName);
      var emailBlank := TrimsToEmpty(formData.email);
      var newErrors := Flagged(map[], firstBlank, FirstName, FirstNameRequired);
      newErrors := Flagged(newErrors, lastBlank, LastName, LastNameRequired);
      newErrors := EmailFlagged(newErrors, emailBlank, LooksLikeEmail(formData.email));
      newErrors := Flagged(newErrors, formData.role == NoRole, RoleField, RoleRequired);
      errors := newErrors;
      ok := errors == map[];
    }

    /** `validateStep2`: likewise for step 2; the length message is given
        only for a non-empty password, and a mismatch is reported on its
        own. */
    method ValidateStep2() returns (ok: bool)
      modifies this
      ensures formData == old(formData) && step == old(step) && isLoading == old(isLoading)
      ensures errors == Step2Errors(formData)
      ensures errors.Keys <= {Password, ConfirmPassword, AcceptTerms}
      ensures Password in errors <==> |formData.password| < MinPasswordLength
      ensures Password in errors ==>
                errors[Password] == (if formData.password == "" then PasswordRequired else PasswordTooShort)
      ensures ConfirmPassword in errors <==> formData.password != formData.confirmPassword
      ensures ConfirmPassword in errors ==> errors[ConfirmPassword] == PasswordMismatch
      ensures AcceptTerms in errors <==> !formData.acceptTerms
      ensures AcceptTerms in errors ==> errors[AcceptTerms] == TermsRequired
      ensures ok <==> Step2Valid(formData)
      ensures ok <==> errors == map[]
    {
      var newErrors: FormErrors := map[];
      if formData.password == "" {
        newErrors := newErrors[Password := PasswordRequired];
      } else if |formData.password| < MinPasswordLength {
        newErrors := newErrors[Password := PasswordTooShort];
      }
      if formData.password != formData.confirmPassword {
        newErrors := newErrors[ConfirmPassword := PasswordMismatch];
      }
      if !formData.acceptTerms {
        newErrors := newErrors[AcceptTerms := TermsRequired];
      }
      errors := newErrors;
      ok := errors == map[];
    }

    /** `handleNext`: from step 1, validate and advance only when valid;
        on any other step nothing happens. */
    method HandleNext()
      modifies this
      ensures formData == old(formData) && isLoading == old(isLoading)
      ensures old(step) == 1 ==> errors == Step1Errors(formData)
      ensures old(step) == 1 && Step1Valid(formData) ==> step == 2 && errors == map[]
      ensures old(step) == 1 && !Step1Valid(formData) ==> step == 1 && errors != map[]
      ensures old(step) != 1 ==> step == old(step) && errors == old(errors)
    {
      if step == 1 {
        var ok := ValidateStep1();
        if ok {
          step := 2;
        }
      }
    }

    /** `handleBack`: back to step 1 with no errors. */
    method HandleBack()
      modifies this
      ensures step == 1 && errors == map[]
      ensures formData == old(formData) && isLoading == old(isLoading)
    {
      step := 1;
      errors := map[];
    }

    /** `handleSubmit`: nothing is sent when step 2 fails (its errors are
        shown); otherwise the form is sent, and a failed call leaves only the
        submit error, with the server's message or a default. Loading ends
        either way. */
    method HandleSubmit(outcome: SubmitOutcome) returns (sent: Option<RegisterRequest>)
      modifies this
      ensures sent.Some? <==> Step2Valid(formData)
      ensures sent.Some? ==> sent.value == RequestOf(formData)
      ensures !Step2Valid(formData) ==> errors == Step2Errors(formData) && errors != map[]
      ensures !Step2Valid(formData) ==> isLoading == old(isLoading)
      ensures Step2Valid(formData) ==> !isLoading
      ensures Step2Valid(formData) && outcome.Responded? ==> errors == map[]
      ensures Step2Valid(formData) && outcome.Failed? ==>
                errors == map[Submit := if outcome.message.Some? && outcome.message.value != ""
                                        then outcome.message.value else SubmitFailed]
      ensures formData == old(formData) && step == old(step)
    {
      var ok := ValidateStep2();
      if !ok {
        return None;
      }
      isLoading := true;
      sent := Some(RequestOf(formData));
      if outcome.Failed? {
        var message := if outcome.message.Some? && outcome.message.value != ""
                       then outcome.message.value else SubmitFailed;
        errors := map[Submit := message];
      }
      isLoading := false;
    }
  }
}

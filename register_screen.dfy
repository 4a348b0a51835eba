/** Sign-up form validation (src/screens/auth/RegisterScreen.tsx). The
    per-field checks are pure; `validateForm` fills a fresh error dictionary
    field by field and stores it in the screen's `errors` state. */
module RegisterScreen {
  import opened Types
  import opened Text

  datatype RegisterForm = RegisterForm(name: string, email: string, password: string, confirmPassword: string)

  /** The four inputs; they are also the keys of the error dictionary
      (`name`, `email`, `password`, `confirmPassword`). */
  datatype RegisterField = Name | Email | Password | ConfirmPassword

  function Get(form: RegisterForm, f: RegisterField): string
  {
    match f
    case Name => form.name
    case Email => form.email
    case Password => form.password
    case ConfirmPassword => form.confirmPassword
  }

  /** `{ ...form, [field]: value }`. */
  function With(form: RegisterForm, f: RegisterField, v: string): RegisterForm
  {
    match f
    case Name => form.(name := v)
    case Email => form.(email := v)
    case Password => form.(password := v)
    case ConfirmPassword => form.(confirmPassword := v)
  }

  /** Setting a field sets that field and no other. */
  lemma WithSetsOnlyField(form: RegisterForm, f: RegisterField, g: RegisterField, v: string)
    ensures Get(With(form, f, v), f) == v
    ensures g != f ==> Get(With(form, f, v), g) == Get(form, g)
  {
  }

  const NameRequired: string := "Name is required"
  const EmailRequired: string := "Email is required"
  const EmailInvalid: string := "Please enter a valid email"
  const PasswordRequired: string := "Password is required"
  const PasswordTooShort: string := "Password must be at least 6 characters"
  const PasswordsMismatch: string := "Passwords do not match"

  const MinPasswordLength: nat := 6

  // ---- The e-mail pattern /\S+@\S+\.\S+/ (unanchored) ----

  /** An '@' at `q` with a non-space character right before it. */
  predicate AtSignAt(s: string, q: int)
  {
    1 <= q < |s| && s[q] == '@' && !IsJsWhitespace(s[q - 1])
  }

  /** After the '@' at `q`: a non-empty run of non-space characters up to a
      '.' at `r`, followed by a non-space character. */
  ghost predicate DomainAt(s: string, q: int, r: int)
  {
    && 0 <= q && q + 1 < r && r + 1 < |s|
    && s[r] == '.' && !IsJsWhitespace(s[r + 1])
    && forall j :: q < j < r ==> !IsJsWhitespace(s[j])
  }

  /** Some substring of `s` matches `\S+@\S+\.\S+`. The leading and trailing
      `\S+` may always shrink to one character, so this is the whole test. */
  ghost predicate EmailShape(s: string)
  {
    exists q, r :: AtSignAt(s, q) && DomainAt(s, q, r)
  }

  /** Scans the non-space run after the '@' at `q`, from `k`, for a '.'
      that has a non-space character on each side. */
  function ScanDomain(s: string, q: nat, k: nat): bool
    requires q < k <= |s|
    decreases |s| - k
  {
    if k == |s| || IsJsWhitespace(s[k]) then false
    else if s[k] == '.' && q + 1 < k && k + 1 < |s| && !IsJsWhitespace(s[k + 1]) then true
    else ScanDomain(s, q, k + 1)
  }

  /** The regular-expression test, as an executable scan. */
  predicate MatchesEmailPattern(s: string)
  {
    exists q | 1 <= q < |s| :: AtSignAt(s, q) && ScanDomain(s, q, q + 1)
  }

  lemma {:induction false} ScanDomainFinds(s: string, q: nat, k: nat)
    requires q < k <= |s|
    requires forall j :: q < j < k ==> !IsJsWhitespace(s[j])
    ensures ScanDomain(s, q, k) <==> exists r :: k <= r && DomainAt(s, q, r)
    decreases |s| - k
  {
    if k == |s| {
    } else if IsJsWhitespace(s[k]) {
    } else if s[k] == '.' && q + 1 < k && k + 1 < |s| && !IsJsWhitespace(s[k + 1]) {
      assert DomainAt(s, q, k);
    } else {
      ScanDomainFinds(s, q, k + 1);
      if r :| k <= r && DomainAt(s, q, r) {
        assert r != k;
      }
    }
  }

  /** The scan accepts exactly the strings the regular expression matches. */
  lemma EmailPatternCorrect(s: string)
    ensures MatchesEmailPattern(s) <==> EmailShape(s)
  {
    forall q | AtSignAt(s, q)
      ensures ScanDomain(s, q, q + 1) <==> exists r :: q + 1 <= r && DomainAt(s, q, r)
    {
      ScanDomainFinds(s, q, q + 1);
    }
  }

  // ---- Per-field checks ----

  /** The error recorded for each field: the name, e-mail and password
      checks are else-if chains, so each field gets at most one message. */
  function NameError(name: string): Option<string>
  {
    if Trim(name) == "" then Some(NameRequired) else None
  }

  function EmailError(email: string): Option<string>
  {
    if Trim(email) == "" then Some(EmailRequired)
    else if !MatchesEmailPattern(email) then Some(EmailInvalid)
    else None
  }

  function PasswordError(password: string): Option<string>
  {
    if Trim(password) == "" then Some(PasswordRequired)
    else if |password| < MinPasswordLength then Some(PasswordTooShort)
    else None
  }

  function ConfirmError(password: string, confirmPassword: string): Option<string>
  {
    if password != confirmPassword then Some(PasswordsMismatch) else None
  }

  /** The check of one field. */
  function FieldError(form: RegisterForm, f: RegisterField): Option<string>
  {
    match f
    case Name => NameError(form.name)
    case Email => EmailError(form.email)
    case Password => PasswordError(form.password)
    case ConfirmPassword => ConfirmError(form.password, form.confirmPassword)
  }

  /** The dictionary holds one entry per failing field, with that field's
      message, and nothing else. */
  ghost predicate ErrorsFor(form: RegisterForm, errors: map<RegisterField, string>)
  {
    forall f: RegisterField :: Agrees(errors, f, FieldError(form, f))
  }

  /** `errors` holds an entry for `f` exactly when `check` failed, and then
      that entry is the check's message. */
  predicate Agrees(errors: map<RegisterField, string>, f: RegisterField, check: Option<string>)
  {
    (f in errors <==> check.Some?) && (f in errors ==> errors[f] == check.value)
  }

  /** What each check means, stated without trim or the scan: a blank name,
      e-mail or password is required; a non-blank e-mail must match the
      pattern; a non-blank password must have at least 6 characters,
      counted untrimmed; the confirmation must equal the password whatever
      the other fields hold. */
  lemma FieldErrorsMeaning(form: RegisterForm)
    ensures NameError(form.name) == if Blank(form.name) then Some(NameRequired) else None
    ensures EmailError(form.email) ==
      if Blank(form.email) then Some(EmailRequired)
      else if !EmailShape(form.email) then Some(EmailInvalid)
      else None
    ensures PasswordError(form.password) ==
      if Blank(form.password) then Some(PasswordRequired)
      else if |form.password| < MinPasswordLength then Some(PasswordTooShort)
      else None
    ensures ConfirmError(form.password, form.confirmPassword).Some? <==> form.password != form.confirmPassword
  {
    TrimEmptyIffBlank(form.name);
    TrimEmptyIffBlank(form.email);
    TrimEmptyIffBlank(form.password);
    EmailPatternCorrect(form.email);
  }

  /** The form passes: every field is acceptable. */
  ghost predicate FormValid(form: RegisterForm)
  {
    && !Blank(form.name)
    && !Blank(form.email) && EmailShape(form.email)
    && !Blank(form.password) && |form.password| >= MinPasswordLength
    && form.password == form.confirmPassword
  }

  /** No field check fails exactly for a valid form. */
  lemma ChecksPassIffValid(form: RegisterForm)
    ensures (forall f: RegisterField :: FieldError(form, f).None?) <==> FormValid(form)
  {
    FieldErrorsMeaning(form);
    var name := FieldError(form, Name).None?;
    var email := FieldError(form, Email).None?;
    var password := FieldError(form, Password).None?;
    var confirm := FieldError(form, ConfirmPassword).None?;
    assert name <==> !Blank(form.name);
    assert email <==> !Blank(form.email) && EmailShape(form.email);
    assert password <==> !Blank(form.password) && |form.password| >= MinPasswordLength;
    assert confirm <==> form.password == form.confirmPassword;
    assert FormValid(form) <==> name && email && password && confirm;
    if !(forall f: RegisterField :: FieldError(form, f).None?) {
      var f: RegisterField :| FieldError(form, f).Some?;
      assert !(name && email && password && confirm) by {
        match f
        case Name =>
        case Email =>
        case Password =>
        case ConfirmPassword =>
      }
    }
  }

  /** `validateForm` returns `Object.keys(newErrors).length === 0`: that is
      true exactly for a valid form. */
  lemma NoErrorsIffValid(form: RegisterForm, errors: map<RegisterField, string>)
    requires ErrorsFor(form, errors)
    ensures errors == map[] <==> FormValid(form)
  {
    ChecksPassIffValid(form);
    if errors != map[] {
      var f :| f in errors;
      assert Agrees(errors, f, FieldError(form, f));
    }
  }

  /** The body of `validateForm` up to `setErrors`: inserts one key per
      failing field into a fresh dictionary. */
  method CollectErrors(form: RegisterForm) returns (errors: map<RegisterField, string>)
    ensures ErrorsFor(form, errors)
    ensures errors == map[] <==> FormValid(form)
  {
    errors := map[];
    var nameError := NameError(form.name);
    if nameError.Some? {
      errors := errors[Name := nameError.value];
    }
    assert Agrees(errors, Name, FieldError(form, Name));
    var emailError := EmailError(form.email);
    if emailError.Some? {
      errors := errors[Email := emailError.value];
    }
    assert Agrees(errors, Email, FieldError(form, Email));
    var passwordError := PasswordError(form.password);
    if passwordError.Some? {
      errors := errors[Password := passwordError.value];
    }
    assert Agrees(errors, Password, FieldError(form, Password));
    var confirmError := ConfirmError(form.password, form.confirmPassword);
    if confirmError.Some? {
      errors := errors[ConfirmPassword := confirmError.value];
    }
    assert Agrees(errors, ConfirmPassword, FieldError(form, ConfirmPassword));
    assert Agrees(errors, Name, FieldError(form, Name));
    assert Agrees(errors, Email, FieldError(form, Email));
    assert Agrees(errors, Password, FieldError(form, Password));
    NoErrorsIffValid(form, errors);
  }

  /** The request `handleRegister` sends; the confirmation is not sent. */
  datatype RegisterRequest = RegisterRequest(name: string, email: string, password: string)

  /** The screen's state: the form, the error messages shown under each
      input, and the loading flag. */
  class RegisterScreenState {
    var formData: RegisterForm
    var errors: map<RegisterField, string>
    var loading: bool

    constructor ()
      ensures formData == RegisterForm("", "", "", "") && errors == map[] && !loading
    {
      formData := RegisterForm("", "", "", "");
      errors := map[];
      loading := false;
    }

    /** `validateForm`: replaces the shown errors and reports validity. */
    method ValidateForm() returns (ok: bool)
      modifies this`errors
      ensures ErrorsFor(formData, errors)
      ensures ok <==> errors == map[]
      ensures ok <==> FormValid(formData)
    {
      var newErrors := CollectErrors(formData);
      errors := newErrors;
      ok := |newErrors| == 0;
      NoErrorsIffValid(formData, newErrors);
    }

    /** `handleRegister` up to the request: nothing is sent for an invalid
      form and `loading` is untouched; otherwise name, e-mail and password
      go out unchanged, with `loading` set for the request and cleared by
      the `finally`. */
    method HandleRegister() returns (request: Option<RegisterRequest>)
      modifies this`errors, this`loading
      ensures ErrorsFor(formData, errors)
      ensures request.None? ==> loading == old(loading)
      ensures request.Some? ==> !loading
      ensures request.Some? <==> FormValid(formData)
      ensures request.Some? ==>
        request.value == RegisterRequest(formData.name, formData.email, formData.password)
    {
      var ok := ValidateForm();
      if !ok {
        return None;
      }
      loading := true;
      request := Some(RegisterRequest(formData.name, formData.email, formData.password));
      loading := false;
    }

    /** `updateFormData`: sets the field; a non-empty error under that field
      is reset to "", every other error stays. */
    method UpdateFormData(f: RegisterField, v: string)
      modifies this`formData, this`errors
      ensures formData == With(old(formData), f, v)
      ensures errors == if f in old(errors) && old(errors)[f] != "" then old(errors)[f := ""] else old(errors)
    {
      formData := With(formData, f, v);
      if f in errors && errors[f] != "" {
        errors := errors[f := ""];
      }
    }
  }
}

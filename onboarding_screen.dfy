/** The doctor application form (src/screens/auth/OnboardingScreen.tsx):
    per-field checks, the error dictionary `validateDoctorForm` builds, the
    submit gate and the request it sends. JavaScript's `Number(...)`
    conversion is a parameter `toNumber`: its full grammar (signs,
    fractions, exponents, hexadecimal, surrounding white space) is not
    part of this model. */
module OnboardingScreen {
  import opened Types
  import opened Text

  /** A JavaScript number as far as the form cares: NaN, a finite value or
      an infinity (`Number("Infinity")`, `Number("1e999")`). */
  datatype JsNumber = NaN | Num(value: real) | Inf(positive: bool)

  datatype DoctorForm = DoctorForm(specialty: string, experience: string, credentialUrl: string, description: string)

  /** The four inputs; they are also the keys of the error dictionary. */
  datatype DoctorField = Specialty | Experience | CredentialUrl | Description

  function Get(form: DoctorForm, f: DoctorField): string
  {
    match f
    case Specialty => form.specialty
    case Experience => form.experience
    case CredentialUrl => form.credentialUrl
    case Description => form.description
  }

  /** `{ ...doctorData, [field]: value }`. */
  function With(form: DoctorForm, f: DoctorField, v: string): DoctorForm
  {
    match f
    case Specialty => form.(specialty := v)
    case Experience => form.(experience := v)
    case CredentialUrl => form.(credentialUrl := v)
    case Description => form.(description := v)
  }

  /** Setting a field sets that field and no other. */
  lemma WithSetsOnlyField(form: DoctorForm, f: DoctorField, g: DoctorField, v: string)
    ensures Get(With(form, f, v), f) == v
    ensures g != f ==> Get(With(form, f, v), g) == Get(form, g)
  {
  }

  const SpecialtyRequired: string := "Specialty is required"
  const ExperienceRequired: string := "Experience is required"
  const ExperienceInvalid: string := "Experience must be a valid number (minimum 1 year)"
  const CredentialRequired: string := "Credential URL is required"
  const CredentialInvalid: string := "Please enter a valid URL"
  const DescriptionTooShort: string := "Description must be at least 20 characters"

  const MinExperience: real := 1.0
  const MinDescriptionLength: nat := 20

  // ---- The URL pattern /^https?:\/\/.+/ ----

  /** The regular-expression test: "http://" or "https://" at the start,
      then one character that is not a line terminator. */
  predicate MatchesUrlPattern(s: string)
  {
    || (|s| > 7 && s[..7] == "http://" && !IsLineTerminator(s[7]))
    || (|s| > 8 && s[..8] == "https://" && !IsLineTerminator(s[8]))
  }

  /** What `https?:\/\/` admits at the start of the string. */
  const UrlPrefixes: set<string> := {"http://", "https://"}

  /** `s` starts with `p`. */
  predicate StartsWith(s: string, p: string)
  {
    |p| <= |s| && s[..|p|] == p
  }

  /** `s[i..j]` holds no line terminator: it is matched by `.` repeated. */
  predicate OnOneLine(s: string, i: int, j: int)
  {
    0 <= i <= j <= |s| && forall k :: i <= k < j ==> !IsLineTerminator(s[k])
  }

  /** The meaning of `/^https?:\/\/.+/`: one of the two prefixes, then a
      non-empty run `.+` of characters that are not line terminators. */
  ghost predicate UrlShape(s: string)
  {
    exists p, j :: p in UrlPrefixes && StartsWith(s, p) && |p| < j && OnOneLine(s, |p|, j)
  }

  /** The unanchored end lets `.+` stop after one character, so testing the
      first character after the prefix decides the whole pattern. */
  lemma UrlPatternCorrect(s: string)
    ensures MatchesUrlPattern(s) <==> UrlShape(s)
  {
    if MatchesUrlPattern(s) {
      if |s| > 7 && s[..7] == "http://" && !IsLineTerminator(s[7]) {
        assert "http://" in UrlPrefixes && StartsWith(s, "http://") && OnOneLine(s, 7, 8);
      } else {
        assert "https://" in UrlPrefixes && StartsWith(s, "https://") && OnOneLine(s, 8, 9);
      }
    }
    if UrlShape(s) {
      var p, j :| p in UrlPrefixes && StartsWith(s, p) && |p| < j && OnOneLine(s, |p|, j);
      assert !IsLineTerminator(s[|p|]);
    }
  }

  // ---- Per-field checks ----

  function SpecialtyError(specialty: string): Option<string>
  {
    if specialty == "" then Some(SpecialtyRequired) else None
  }

  /** `isNaN(Number(x)) || Number(x) < 1`: -Infinity is below 1,
      +Infinity is not. */
  predicate ExperienceRejected(n: JsNumber)
  {
    || n.NaN?
    || (n.Num? && n.value < MinExperience)
    || (n.Inf? && !n.positive)
  }

  function ExperienceError(experience: string, toNumber: string -> JsNumber): Option<string>
  {
    if experience == "" then Some(ExperienceRequired)
    else if ExperienceRejected(toNumber(experience)) then Some(ExperienceInvalid)
    else None
  }

  function CredentialError(url: string): Option<string>
  {
    if url == "" then Some(CredentialRequired)
    else if !MatchesUrlPattern(url) then Some(CredentialInvalid)
    else None
  }

  function DescriptionError(description: string): Option<string>
  {
    if description == "" || |description| < MinDescriptionLength then Some(DescriptionTooShort) else None
  }

  /** The description check does not trim: it fails exactly below 20 characters. */
  lemma DescriptionCheckIsLength(description: string)
    ensures DescriptionError(description).Some? <==> |description| < MinDescriptionLength
  {
  }

  function FieldError(form: DoctorForm, f: DoctorField, toNumber: string -> JsNumber): Option<string>
  {
    match f
    case Specialty => SpecialtyError(form.specialty)
    case Experience => ExperienceError(form.experience, toNumber)
    case CredentialUrl => CredentialError(form.credentialUrl)
    case Description => DescriptionError(form.description)
  }

  /** `errors` holds an entry for `f` exactly when `check` failed, and then
      that entry is the check's message. */
  predicate Agrees(errors: map<DoctorField, string>, f: DoctorField, check: Option<string>)
  {
    (f in errors <==> check.Some?) && (f in errors ==> errors[f] == check.value)
  }

  ghost predicate ErrorsFor(form: DoctorForm, toNumber: string -> JsNumber, errors: map<DoctorField, string>)
  {
    forall f: DoctorField :: Agrees(errors, f, FieldError(form, f, toNumber))
  }

  /** The application passes: a specialty is chosen, the experience is a
      number of at least 1, the credential is an http(s) URL and the
      description has at least 20 characters. */
  ghost predicate FormValid(form: DoctorForm, toNumber: string -> JsNumber)
  {
    && form.specialty != ""
    && form.experience != "" && !ExperienceRejected(toNumber(form.experience))
    && UrlShape(form.credentialUrl)
    && |form.description| >= MinDescriptionLength
  }

  lemma ChecksPassIffValid(form: DoctorForm, toNumber: string -> JsNumber)
    ensures (forall f: DoctorField :: FieldError(form, f, toNumber).None?) <==> FormValid(form, toNumber)
  {
    UrlPatternCorrect(form.credentialUrl);
    var specialty := FieldError(form, Specialty, toNumber).None?;
    var experience := FieldError(form, Experience, toNumber).None?;
    var url := FieldError(form, CredentialUrl, toNumber).None?;
    var description := FieldError(form, Description, toNumber).None?;
    assert url <==> UrlShape(form.credentialUrl);
    assert FormValid(form, toNumber) <==> specialty && experience && url && description;
    if !(forall f: DoctorField :: FieldError(form, f, toNumber).None?) {
      var f: DoctorField :| FieldError(form, f, toNumber).Some?;
      assert !(specialty && experience && url && description) by {
        match f
        case Specialty =>
        case Experience =>
        case CredentialUrl =>
        case Description =>
      }
    }
  }

  /** `validateDoctorForm` returns `Object.keys(newErrors).length === 0`:
      true exactly for a valid application. */
  lemma NoErrorsIffValid(form: DoctorForm, toNumber: string -> JsNumber, errors: map<DoctorField, string>)
    requires ErrorsFor(form, toNumber, errors)
    ensures errors == map[] <==> FormValid(form, toNumber)
  {
    ChecksPassIffValid(form, toNumber);
    if errors != map[] {
      var f :| f in errors;
      assert Agrees(errors, f, FieldError(form, f, toNumber));
    }
  }

  /** The body of `validateDoctorForm` up to `setErrors`. */
  method CollectErrors(form: DoctorForm, toNumber: string -> JsNumber) returns (errors: map<DoctorField, string>)
    ensures ErrorsFor(form, toNumber, errors)
    ensures errors == map[] <==> FormValid(form, toNumber)
  {
    errors := map[];
    var specialtyError := SpecialtyError(form.specialty);
    if specialtyError.Some? {
      errors := errors[Specialty := specialtyError.value];
    }
    assert Agrees(errors, Specialty, FieldError(form, Specialty, toNumber));
    var experienceError := ExperienceError(form.experience, toNumber);
    if experienceError.Some? {
      errors := errors[Experience := experienceError.value];
    }
    assert Agrees(errors, Experience, FieldError(form, Experience, toNumber));
    var credentialError := CredentialError(form.credentialUrl);
    if credentialError.Some? {
      errors := errors[CredentialUrl := credentialError.value];
    }
    assert Agrees(errors, CredentialUrl, FieldError(form, CredentialUrl, toNumber));
    var descriptionError := DescriptionError(form.description);
    if descriptionError.Some? {
      errors := errors[Description := descriptionError.value];
    }
    assert Agrees(errors, Description, FieldError(form, Description, toNumber));
    assert Agrees(errors, Specialty, FieldError(form, Specialty, toNumber));
    assert Agrees(errors, Experience, FieldError(form, Experience, toNumber));
    assert Agrees(errors, CredentialUrl, FieldError(form, CredentialUrl, toNumber));
    NoErrorsIffValid(form, toNumber, errors);
  }

  // ---- Experience typed as decimal digits ----

  predicate AllDigits(s: string)
  {
    forall i :: 0 <= i < |s| ==> '0' <= s[i] <= '9'
  }

  /** The value of a string of decimal digits. */
  function DecimalValue(s: string): nat
    requires AllDigits(s)
  {
    if s == [] then 0
    else 10 * DecimalValue(s[..|s| - 1]) + (s[|s| - 1] as int - '0' as int)
  }

  lemma {:induction false} DecimalPositiveIffNonzeroDigit(s: string)
    requires AllDigits(s)
    ensures DecimalValue(s) >= 1 <==> exists i :: 0 <= i < |s| && s[i] != '0'
  {
    if s != [] {
      var t := s[..|s| - 1];
      DecimalPositiveIffNonzeroDigit(t);
      if DecimalValue(t) >= 1 {
        var i :| 0 <= i < |t| && t[i] != '0';
        assert s[i] != '0';
      }
      if i :| 0 <= i < |s| && s[i] != '0' {
        if i < |s| - 1 {
          assert t[i] != '0';
        }
      }
    }
  }

  /** For a digit string that `Number` reads as its decimal value, the
      experience is accepted exactly when some digit is not '0'. */
  lemma ExperienceDigits(experience: string, toNumber: string -> JsNumber)
    requires experience != "" && AllDigits(experience)
    requires toNumber(experience) == Num(DecimalValue(experience) as real)
    ensures ExperienceError(experience, toNumber).None? <==>
      exists i :: 0 <= i < |experience| && experience[i] != '0'
  {
    ExperienceOfWholeNumber(experience, toNumber, DecimalValue(experience));
    DecimalPositiveIffNonzeroDigit(experience);
  }

  /** An experience that `Number` reads as a whole number passes exactly
      when that number is at least 1. */
  lemma ExperienceOfWholeNumber(experience: string, toNumber: string -> JsNumber, v: nat)
    requires experience != "" && toNumber(experience) == Num(v as real)
    ensures ExperienceError(experience, toNumber).None? <==> v >= 1
  {
  }

  /** `Number` reads a string as +Infinity only for an overflowing or
      spelled-out infinite value; such an experience passes the check (and
      is handed to `setUserRole` as +Infinity, which JSON encodes as
      `null`), while -Infinity is refused. */
  lemma InfiniteExperience(experience: string, toNumber: string -> JsNumber)
    requires experience != "" && toNumber(experience).Inf?
    ensures ExperienceError(experience, toNumber).None? <==> toNumber(experience).positive
  {
  }

  /** The request `handleDoctorSubmit` sends. */
  datatype SetRoleRequest = SetRoleRequest(
    role: Role, specialty: string, experience: JsNumber, credentialUrl: string, description: string)

  class OnboardingScreenState {
    var doctorData: DoctorForm
    var errors: map<DoctorField, string>
    var loading: bool

    constructor ()
      ensures doctorData == DoctorForm("", "", "", "") && errors == map[] && !loading
    {
      doctorData := DoctorForm("", "", "", "");
      errors := map[];
      loading := false;
    }

    /** `validateDoctorForm`: replaces the shown errors and reports validity. */
    method ValidateDoctorForm(toNumber: string -> JsNumber) returns (ok: bool)
      modifies this`errors
      ensures ErrorsFor(doctorData, toNumber, errors)
      ensures ok <==> errors == map[]
      ensures ok <==> FormValid(doctorData, toNumber)
    {
      var newErrors := CollectErrors(doctorData, toNumber);
      errors := newErrors;
      ok := |newErrors| == 0;
    }

    /** `handleDoctorSubmit` up to the request: nothing is sent for an
      invalid application and `loading` is untouched; otherwise role DOCTOR,
      the experience converted by `Number` and the other fields unchanged,
      with `loading` set for the request and cleared by the `finally`. */
    method HandleDoctorSubmit(toNumber: string -> JsNumber) returns (request: Option<SetRoleRequest>)
      modifies this`errors, this`loading
      ensures ErrorsFor(doctorData, toNumber, errors)
      ensures request.None? ==> loading == old(loading)
      ensures request.Some? ==> !loading
      ensures request.Some? <==> FormValid(doctorData, toNumber)
      ensures request.Some? ==> request.value == SetRoleRequest(
        DoctorRole, doctorData.specialty, toNumber(doctorData.experience),
        doctorData.credentialUrl, doctorData.description)
    {
      var ok := ValidateDoctorForm(toNumber);
      if !ok {
        return None;
      }
      loading := true;
      request := Some(SetRoleRequest(
        DoctorRole, doctorData.specialty, toNumber(doctorData.experience),
        doctorData.credentialUrl, doctorData.description));
      loading := false;
    }

    /** `updateDoctorData`: sets the field; a non-empty error under that
      field is reset to "", every other error stays. */
    method UpdateDoctorData(f: DoctorField, v: string)
      modifies this`doctorData, this`errors
      ensures doctorData == With(old(doctorData), f, v)
      ensures errors == if f in old(errors) && old(errors)[f] != "" then old(errors)[f := ""] else old(errors)
    {
      doctorData := With(doctorData, f, v);
      if f in errors && errors[f] != "" {
        errors := errors[f := ""];
      }
    }
  }
}

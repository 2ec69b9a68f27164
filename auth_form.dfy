/*
 * The login/signup card (src/components/MainFeature.jsx) without its markup:
 * the form's fields, the client-side validator and the component state that
 * the mode toggle, the input handler and the strength effect update.
 *
 * Lengths are counted in characters.  `trim() === ''` and the `\S` of the
 * e-mail pattern use the same notion of white space, IsSpace.
 */
module AuthForm {
  import opened PasswordStrength

  datatype Option<T> = None | Some(value: T)

  /** `authMode`: 'login' or 'signup' */
  datatype Mode = Login | Signup

  /** The `name` attributes of the four inputs. */
  datatype Field = Email | Username | Password | ConfirmPassword

  /** `formData` */
  datatype FormData = FormData(email: string, username: string, password: string, confirmPassword: string)
  {
    function Get(f: Field): string {
      match f
      case Email => email
      case Username => username
      case Password => password
      case ConfirmPassword => confirmPassword
    }

    /** `{ ...prev, [name]: value }`: one field replaced, the others kept. */
    function Set(f: Field, value: string): (r: FormData)
      ensures r.Get(f) == value
      ensures forall g | g != f :: r.Get(g) == Get(g)
    {
      match f
      case Email => this.(email := value)
      case Username => this.(username := value)
      case Password => this.(password := value)
      case ConfirmPassword => this.(confirmPassword := value)
    }
  }

  const EmptyForm: FormData := FormData("", "", "", "")

  // ---------------------------------------------------------------------------
  // White space and the e-mail pattern

  /** The ECMAScript white-space and line-terminator characters, which both
      `String.prototype.trim` and the `\s`/`\S` classes use. */
  predicate IsSpace(c: char) {
    || '\t' <= c <= '\r'
    || c == ' ' || c == '\U{00A0}' || c == '\U{1680}'
    || '\U{2000}' <= c <= '\U{200A}'
    || c == '\U{2028}' || c == '\U{2029}' || c == '\U{202F}' || c == '\U{205F}'
    || c == '\U{3000}' || c == '\U{FEFF}'
  }

  /** `s.trim() === ''` */
  predicate IsBlank(s: string) { forall i | 0 <= i < |s| :: IsSpace(s[i]) }

  /** The characters of `s` from `lo` up to `hi` form a non-empty run of `\S`. */
  predicate NonSpaceRun(s: string, lo: int, hi: int)
    requires 0 <= lo && hi <= |s|
  {
    lo < hi && forall i | lo <= i < hi :: !IsSpace(s[i])
  }

  /** `\S+@\S+\.\S+` matches the characters of `s` from `start` up to `end`,
      with the `@` at `at` and the `.` at `dot`. */
  predicate EmailMatchAt(s: string, start: int, at: int, dot: int, end: int)
    requires 0 <= start < at < dot < end <= |s|
  {
    && NonSpaceRun(s, start, at)
    && s[at] == '@'
    && NonSpaceRun(s, at + 1, dot)
    && s[dot] == '.'
    && NonSpaceRun(s, dot + 1, end)
  }

  /** `/\S+@\S+\.\S+/.test(s)`: the pattern is not anchored, so it is enough
      that some stretch of `s` matches it. */
  predicate EmailLike(s: string) {
    exists start, at, dot, end | 0 <= start < at < dot < end <= |s| :: EmailMatchAt(s, start, at, dot, end)
  }

  /** Anything the e-mail pattern accepts is not blank. */
  lemma EmailLikeNotBlank(s: string)
    requires EmailLike(s)
    ensures !IsBlank(s)
  {
    var start, at, dot, end :| 0 <= start < at < dot < end <= |s| && EmailMatchAt(s, start, at, dot, end);
    assert !IsSpace(s[at]);
  }

  // ---------------------------------------------------------------------------
  // Validation

  const EmailRequired: string := "Email is required"
  const EmailInvalid: string := "Email is invalid"
  const UsernameRequired: string := "Username is required"
  const UsernameTooShort: string := "Username must be at least 3 characters"
  const PasswordRequired: string := "Password is required"
  const PasswordTooShort: string := "Password must be at least 8 characters"
  const ConfirmRequired: string := "Please confirm your password"
  const ConfirmMismatch: string := "Passwords do not match"

  const MinUsernameLength: nat := 3
  const MinPasswordLength: nat := 8

  /** Username and confirmation are only checked when signing up. */
  predicate Applies(mode: Mode, f: Field) {
    mode == Signup || f == Email || f == Password
  }

  /** The "is required" message of each field. */
  function RequiredMessage(f: Field): string {
    match f
    case Email => EmailRequired
    case Username => UsernameRequired
    case Password => PasswordRequired
    case ConfirmPassword => ConfirmRequired
  }

  /**
   * The error the validator records for field `f`, if any.  A field gets
   * at most one message, and "required" is tested before the field's
   * second check.
   */
  function FieldError(mode: Mode, form: FormData, f: Field): (r: Option<string>)
    ensures !Applies(mode, f) ==> r == None
  {
    match f
    case Email =>
      if IsBlank(form.email) then Some(EmailRequired)
      else if !EmailLike(form.email) then Some(EmailInvalid)
      else None
    case Username =>
      if mode != Signup then None
      else if IsBlank(form.username) then Some(UsernameRequired)
      else if |form.username| < MinUsernameLength then Some(UsernameTooShort)
      else None
    case Password =>
      if form.password == "" then Some(PasswordRequired)
      else if |form.password| < MinPasswordLength then Some(PasswordTooShort)
      else None
    case ConfirmPassword =>
      if mode != Signup then None
      else if form.confirmPassword == "" then Some(ConfirmRequired)
      else if form.password != form.confirmPassword then Some(ConfirmMismatch)
      else None
  }

  /** No field of the form has an error in this mode. */
  predicate NoFieldErrors(mode: Mode, form: FormData) {
    && FieldError(mode, form, Email).None?
    && FieldError(mode, form, Username).None?
    && FieldError(mode, form, Password).None?
    && FieldError(mode, form, ConfirmPassword).None?
  }

  /**
   * `validateForm` without the state setters: the error map is built field
   * by field, and every recorded error clears the validity flag.
   */
  method Validate(mode: Mode, form: FormData) returns (errors: map<Field, string>, isValid: bool)
    ensures forall f :: f in errors <==> FieldError(mode, form, f).Some?
    ensures forall f | f in errors :: errors[f] == FieldError(mode, form, f).value
    ensures isValid <==> errors == map[]
    ensures isValid <==> NoFieldErrors(mode, form)
  {
    errors := map[];
    isValid := true;

    if IsBlank(form.email) {
      errors := errors[Email := EmailRequired];
      isValid := false;
    } else if !EmailLike(form.email) {
      errors := errors[Email := EmailInvalid];
      isValid := false;
    }

    if mode == Signup {
      if IsBlank(form.username) {
        errors := errors[Username := UsernameRequired];
        isValid := false;
      } else if |form.username| < MinUsernameLength {
        errors := errors[Username := UsernameTooShort];
        isValid := false;
      }
    }

    if form.password == "" {
      errors := errors[Password := PasswordRequired];
      isValid := false;
    } else if |form.password| < MinPasswordLength {
      errors := errors[Password := PasswordTooShort];
      isValid := false;
    }

    if mode == Signup {
      if form.confirmPassword == "" {
        errors := errors[ConfirmPassword := ConfirmRequired];
        isValid := false;
      } else if form.password != form.confirmPassword {
        errors := errors[ConfirmPassword := ConfirmMismatch];
        isValid := false;
      }
    }
    assert !isValid ==> Email in errors || Username in errors || Password in errors || ConfirmPassword in errors;
  }

  /**
   * The form passes exactly when the e-mail matches the pattern, the
   * password has at least 8 characters and, when signing up, the username
   * is not blank and has at least 3 characters and the confirmation equals
   * the password.
   */
  lemma {:induction false} NoFieldErrorsIff(mode: Mode, form: FormData)
    ensures NoFieldErrors(mode, form) <==>
      && EmailLike(form.email)
      && |form.password| >= MinPasswordLength
      && (mode == Signup ==>
            && !IsBlank(form.username)
            && |form.username| >= MinUsernameLength
            && form.confirmPassword == form.password)
  {
    if EmailLike(form.email) {
      EmailLikeNotBlank(form.email);
    }
  }

  /** In login mode the username and the confirmation are never looked at:
      changing them changes no error. */
  lemma LoginIgnoresSignupFields(form: FormData, f: Field, g: Field, value: string)
    requires g == Username || g == ConfirmPassword
    ensures FieldError(Login, form, g) == None
    ensures FieldError(Login, form.Set(g, value), f) == FieldError(Login, form, f)
  {
  }

  /** An empty field that is checked in this mode gets its "required" message,
      before any other check of that field; for the e-mail and the username,
      which are trimmed first, a field of white space only counts as empty. */
  lemma RequiredTakesPrecedence(mode: Mode, form: FormData, f: Field)
    requires Applies(mode, f)
    requires if f == Email || f == Username then IsBlank(form.Get(f)) else form.Get(f) == ""
    ensures FieldError(mode, form, f) == Some(RequiredMessage(f))
  {
  }

  // ---------------------------------------------------------------------------
  // Component state

  /** The strength meter and its suggestions are shown when signing up with a
      non-empty password; the suggestions only below strength 3. */
  predicate SuggestionBoxVisible(mode: Mode, password: string, strength: int) {
    mode == Signup && password != "" && SuggestionsShown(password, strength)
  }

  /** When the card shows the suggestion box for the strength it computed,
      the box lists at least one suggestion. */
  lemma SuggestionBoxNeverEmpty(mode: Mode, password: string)
    requires SuggestionBoxVisible(mode, password, Score(password, PenaltyAsWritten))
    ensures Suggestions(password) != []
  {
    ShownSuggestionsNonEmpty(password, PenaltyAsWritten);
  }

  /** The card's state: the hooks of the component. */
  class AuthCard {
    var authMode: Mode
    var formData: FormData
    var showPassword: bool
    var errors: map<Field, string>
    var isSubmitting: bool
    var formValid: bool
    var passwordStrength: int
    var passwordMessage: string

    /** The strength shown is always a valid index of the label table, and
        the message is empty or one of the labels. */
    ghost predicate Valid()
      reads this
    {
      && 0 <= passwordStrength <= MaxStrength
      && (passwordMessage == "" || passwordMessage in Labels)
    }

    /** The initial state of every hook. */
    constructor ()
      ensures Valid()
      ensures authMode == Login && formData == EmptyForm
      ensures !showPassword && errors == map[] && !isSubmitting && !formValid
      ensures passwordStrength == 0 && passwordMessage == ""
    {
      authMode := Login;
      formData := EmptyForm;
      showPassword := false;
      errors := map[];
      isSubmitting := false;
      formValid := false;
      passwordStrength := 0;
      passwordMessage := "";
    }

    /** The reset effect that runs whenever `authMode` changes. */
    method ModeChanged()
      requires Valid()
      modifies this`formData, this`errors, this`showPassword, this`isSubmitting
      ensures Valid()
      ensures formData == EmptyForm && errors == map[] && !showPassword && !isSubmitting
    {
      formData := EmptyForm;
      errors := map[];
      showPassword := false;
      isSubmitting := false;
    }

    /** The "Login" and "Sign Up" tabs: `setAuthMode(mode)`.  The reset effect
        only runs when the mode actually changes. */
    method SetAuthMode(mode: Mode)
      requires Valid()
      modifies this
      ensures Valid()
      ensures authMode == mode
      ensures mode != old(authMode) ==> formData == EmptyForm && errors == map[] && !showPassword && !isSubmitting
      ensures mode == old(authMode) ==>
        formData == old(formData) && errors == old(errors) && showPassword == old(showPassword) && isSubmitting == old(isSubmitting)
      ensures formValid == old(formValid)
      ensures passwordStrength == old(passwordStrength) && passwordMessage == old(passwordMessage)
    {
      var changed := mode != authMode;
      authMode := mode;
      if changed {
        ModeChanged();
      }
    }

    /** `switchAuthMode`: flips the mode, which always triggers the reset. */
    method SwitchAuthMode()
      requires Valid()
      modifies this
      ensures Valid()
      ensures authMode == if old(authMode) == Login then Signup else Login
      ensures formData == EmptyForm && errors == map[] && !showPassword && !isSubmitting
      ensures formValid == old(formValid)
      ensures passwordStrength == old(passwordStrength) && passwordMessage == old(passwordMessage)
    {
      SetAuthMode(if authMode == Login then Signup else Login);
    }

    /** `resetForm`: empties the form, the errors and the visibility toggle;
        the mode and the submitting flag are kept. */
    method ResetForm()
      requires Valid()
      modifies this`formData, this`errors, this`showPassword
      ensures Valid()
      ensures formData == EmptyForm && errors == map[] && !showPassword
    {
      formData := EmptyForm;
      errors := map[];
      showPassword := false;
    }

    /** `handleChange`: the input named `name` takes `value`; nothing else changes. */
    method HandleChange(name: Field, value: string)
      requires Valid()
      modifies this`formData
      ensures Valid()
      ensures formData == old(formData).Set(name, value)
      ensures formData.Get(name) == value
      ensures forall g | g != name :: formData.Get(g) == old(formData).Get(g)
    {
      formData := formData.Set(name, value);
    }

    /** `togglePasswordVisibility` */
    method TogglePasswordVisibility()
      requires Valid()
      modifies this`showPassword
      ensures Valid()
      ensures showPassword == !old(showPassword)
    {
      showPassword := !showPassword;
    }

    /** `validateForm`: records the errors of the current form in the current
        mode and reports whether there were none. */
    method ValidateForm() returns (isValid: bool)
      requires Valid()
      modifies this`errors, this`formValid
      ensures Valid()
      ensures forall f :: f in errors <==> FieldError(authMode, formData, f).Some?
      ensures forall f | f in errors :: errors[f] == FieldError(authMode, formData, f).value
      ensures formValid == isValid
      ensures isValid <==> errors == map[]
      ensures isValid <==> NoFieldErrors(authMode, formData)
    {
      var newErrors;
      newErrors, isValid := Validate(authMode, formData);
      errors := newErrors;
      formValid := isValid;
    }

    /** The password-strength effect: the meter follows the current password. */
    method UpdatePasswordStrength()
      requires Valid()
      modifies this`passwordStrength, this`passwordMessage
      ensures Valid()
      ensures passwordStrength == Score(formData.password, PenaltyAsWritten)
      ensures passwordMessage == if formData.password == "" then "" else Labels[passwordStrength]
    {
      passwordStrength, passwordMessage := CalculateStrength(formData.password);
    }
  }
}

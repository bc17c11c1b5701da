/** The sign-in / sign-up page: one form whose validation depends on the mode, a mode toggle
    that starts the form afresh, and a submit that reaches the authentication service only
    with a valid form. */
module AuthPage {
  import opened Wrappers
  import opened Text
  import Helpers
  import Forms

  /** The form's five inputs. */
  datatype AuthFormData = AuthFormData(
    email: string,
    password: string,
    confirmPassword: string,
    fullName: string,
    phone: string)

  /** The fields validation can flag; they are also the names of the inputs. */
  datatype Field = Email | Password | ConfirmPassword | FullName | Phone

  const EmptyForm: AuthFormData := AuthFormData("", "", "", "", "")
  const MinPasswordLength: nat := 6

  /** The message for the password, if it has one. */
  function PasswordError(password: string): (m: Option<string>)
    ensures m.None? <==> |password| >= MinPasswordLength
    ensures password == "" ==> m == Some("Password is required")
  {
    if password == "" then Some("Password is required")
    else if |password| < MinPasswordLength then Some("Password must be at least 6 characters")
    else None
  }

  /** The message for the confirmation, if it has one. */
  function ConfirmError(password: string, confirm: string): (m: Option<string>)
    ensures m.None? <==> confirm != "" && confirm == password
    ensures confirm == "" ==> m == Some("Please confirm your password")
  {
    if confirm == "" then Some("Please confirm your password")
    else if password != confirm then Some("Passwords do not match")
    else None
  }

  /** The message for one field: none exactly when the field's rule holds. */
  function FieldError(form: AuthFormData, f: Field): (e: Option<string>)
    ensures f == Email ==> (e.None? <==> form.email != "" && Helpers.IsValidEmail(form.email))
    ensures f == Password ==> (e.None? <==> |form.password| >= MinPasswordLength)
    ensures f == ConfirmPassword ==>
      (e.None? <==> form.confirmPassword != "" && form.confirmPassword == form.password)
    ensures f == FullName ==> (e.None? <==> !IsBlank(form.fullName))
    ensures f == Phone ==> (e.None? <==> form.phone == "" || Helpers.IsValidPhone(form.phone))
  {
    match f
    case Email => Forms.EmailError(form.email)
    case Password => PasswordError(form.password)
    case ConfirmPassword => ConfirmError(form.password, form.confirmPassword)
    case FullName => Forms.RequiredError(form.fullName, "Full name is required")
    case Phone => Forms.OptionalPhoneError(form.phone)
  }

  function Check(form: AuthFormData): Field -> Option<string> {
    f => FieldError(form, f)
  }

  /** Signing in checks the credentials only; signing up checks every field. */
  function CheckedFields(isSignUp: bool): set<Field> {
    if isSignUp then {Email, Password, FullName, Phone, ConfirmPassword} else {Email, Password}
  }

  /** The messages a validation pass records. */
  function FormErrors(form: AuthFormData, isSignUp: bool): map<Field, string> {
    Forms.ErrorsOver(Check(form), CheckedFields(isSignUp))
  }

  /** When the form may be submitted: a valid e-mail and a password of at least six
      characters, and for sign-up also a name that is not blank, a phone that is empty or
      valid, and a confirmation equal to the password. */
  function FormValid(form: AuthFormData, isSignUp: bool): (ok: bool)
    ensures !isSignUp ==>
      (ok <==> FieldError(form, Email).None? && FieldError(form, Password).None?)
    ensures isSignUp ==>
      (ok <==> FieldError(form, Email).None? && FieldError(form, Password).None? &&
               FieldError(form, FullName).None? && FieldError(form, Phone).None? &&
               FieldError(form, ConfirmPassword).None?)
  {
    && form.email != "" && Helpers.IsValidEmail(form.email)
    && |form.password| >= MinPasswordLength
    && (isSignUp ==>
          && !IsBlank(form.fullName)
          && (form.phone == "" || Helpers.IsValidPhone(form.phone))
          && form.confirmPassword == form.password)
  }

  /** Validation passes exactly when it records no message. */
  lemma FormValidIffNoErrors(form: AuthFormData, isSignUp: bool)
    ensures FormErrors(form, isSignUp) == map[] <==> FormValid(form, isSignUp)
  {
    Forms.NoErrorsIffAllPass(Check(form), CheckedFields(isSignUp));
    assert Check(form)(Email) == FieldError(form, Email);
    assert Check(form)(Password) == FieldError(form, Password);
    if isSignUp {
      assert Check(form)(FullName) == FieldError(form, FullName);
      assert Check(form)(Phone) == FieldError(form, Phone);
      assert Check(form)(ConfirmPassword) == FieldError(form, ConfirmPassword);
      assert form.password != "" ==> |form.password| > 0;
    }
  }

  /** Signing in flags only the e-mail and the password, whatever the other inputs hold. */
  lemma SignInChecksCredentialsOnly(form: AuthFormData, other: AuthFormData)
    requires form.email == other.email && form.password == other.password
    ensures forall f :: f in FormErrors(form, false) ==> f == Email || f == Password
    ensures FormErrors(form, false) == FormErrors(other, false)
  {
    assert CheckedFields(false) == {Email, Password};
  }

  /** The checks of `validateForm()`, filled in field by field. */
  method CollectErrors(form: AuthFormData, isSignUp: bool) returns (m: map<Field, string>)
    ensures m == FormErrors(form, isSignUp)
  {
    ghost var done: set<Field> := {};
    m := Forms.Record(map[], Email, FieldError(form, Email));
    Forms.ErrorsOverAdd(Check(form), done, Email);
    done := done + {Email};
    m := Forms.Record(m, Password, FieldError(form, Password));
    Forms.ErrorsOverAdd(Check(form), done, Password);
    done := done + {Password};
    if isSignUp {
      m := Forms.Record(m, FullName, FieldError(form, FullName));
      Forms.ErrorsOverAdd(Check(form), done, FullName);
      done := done + {FullName};
      m := Forms.Record(m, Phone, FieldError(form, Phone));
      Forms.ErrorsOverAdd(Check(form), done, Phone);
      done := done + {Phone};
      m := Forms.Record(m, ConfirmPassword, FieldError(form, ConfirmPassword));
      Forms.ErrorsOverAdd(Check(form), done, ConfirmPassword);
      done := done + {ConfirmPassword};
    }
    assert done == CheckedFields(isSignUp);
  }

  /** The page's mode, inputs and messages. */
  class Auth {
    var isSignUp: bool
    var formData: AuthFormData
    var errors: map<Field, string>

    constructor()
      ensures !isSignUp && formData == EmptyForm && errors == map[]
    {
      isSignUp := false;
      formData := EmptyForm;
      errors := map[];
    }

    /** `validateForm()`: the messages replace the shown ones, field by field, and the form is
        valid when there are none. */
    method ValidateForm() returns (valid: bool)
      modifies this
      ensures isSignUp == old(isSignUp) && formData == old(formData)
      ensures errors == FormErrors(formData, isSignUp)
      ensures valid <==> FormValid(formData, isSignUp)
    {
      var newErrors := CollectErrors(formData, isSignUp);
      errors := newErrors;
      FormValidIffNoErrors(formData, isSignUp);
      valid := |newErrors| == 0;
    }

    /** `handleInputChange(field)`: the input is set, and a message shown for it is cleared. */
    method HandleInputChange(field: Field, value: string)
      modifies this
      ensures formData == match field
        case Email => old(formData).(email := value)
        case Password => old(formData).(password := value)
        case ConfirmPassword => old(formData).(confirmPassword := value)
        case FullName => old(formData).(fullName := value)
        case Phone => old(formData).(phone := value)
      ensures errors == Forms.ClearOnEdit(old(errors), field)
      ensures isSignUp == old(isSignUp)
    {
      formData := match field
        case Email => formData.(email := value)
        case Password => formData.(password := value)
        case ConfirmPassword => formData.(confirmPassword := value)
        case FullName => formData.(fullName := value)
        case Phone => formData.(phone := value);
      errors := Forms.ClearOnEdit(errors, field);
    }

    /** The mode toggle: the other mode, every input emptied and no message shown. */
    method ToggleMode()
      modifies this
      ensures isSignUp == !old(isSignUp)
      ensures formData == EmptyForm && errors == map[]
    {
      isSignUp := !isSignUp;
      errors := map[];
      formData := EmptyForm;
    }

    /** `handleSubmit()`. `service` is the authentication service's answer: `None` when it
        succeeds, the message it gives when it fails. `thrown` says the call threw. Returns
        whether the service was called and whether the page navigates away. */
    method HandleSubmit(service: Option<string>, thrown: bool)
      returns (called: bool, navigated: bool)
      modifies this
      ensures isSignUp == old(isSignUp) && formData == old(formData)
      ensures called <==> FormValid(formData, isSignUp)
      ensures !called ==> errors == FormErrors(formData, isSignUp) && !navigated
      ensures called && thrown ==>
        errors == map[Email := "An unexpected error occurred"] && !navigated
      ensures called && !thrown && service.Some? ==>
        errors == map[Email := service.value] && !navigated
      ensures called && !thrown && service.None? ==> errors == map[] && navigated
    {
      called, navigated := false, false;
      var valid := ValidateForm();
      if !valid {
        return;
      }
      errors := map[];
      called := true;
      if thrown {
        errors := map[Email := "An unexpected error occurred"];
      } else if service.Some? {
        errors := map[Email := service.value];
      } else {
        navigated := true;
      }
    }
  }
}

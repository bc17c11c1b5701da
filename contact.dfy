/** The contact page: a five-field message form whose submit, once the form validates, shows
    the confirmation and empties the form. */
module ContactPage {
  import opened Wrappers
  import opened Text
  import Helpers
  import Forms

  /** The form's five inputs. */
  datatype ContactFormData = ContactFormData(
    name: string,
    email: string,
    phone: string,
    subject: string,
    message: string)

  /** The fields validation can flag; they are also the names of the inputs. */
  datatype Field = Name | Email | Phone | Subject | Message

  const EmptyForm: ContactFormData := ContactFormData("", "", "", "", "")
  const MinMessageLength: nat := 10

  /** The message for the message field, if it has one. Its length is counted before
      trimming. */
  function MessageError(message: string): (m: Option<string>)
    ensures m.None? <==> !IsBlank(message) && |message| >= MinMessageLength
    ensures IsBlank(message) ==> m == Some("Message is required")
  {
    if IsBlank(message) then Some("Message is required")
    else if |message| < MinMessageLength then
      Some("Message must be at least 10 characters long")
    else None
  }

  /** The message for one field: none exactly when the field's rule holds. */
  function FieldError(form: ContactFormData, f: Field): (e: Option<string>)
    ensures f == Name ==> (e.None? <==> !IsBlank(form.name))
    ensures f == Email ==> (e.None? <==> form.email != "" && Helpers.IsValidEmail(form.email))
    ensures f == Phone ==> (e.None? <==> form.phone == "" || Helpers.IsValidPhone(form.phone))
    ensures f == Subject ==> (e.None? <==> !IsBlank(form.subject))
    ensures f == Message ==>
      (e.None? <==> !IsBlank(form.message) && |form.message| >= MinMessageLength)
  {
    match f
    case Name => Forms.RequiredError(form.name, "Name is required")
    case Email => Forms.EmailError(form.email)
    case Phone => Forms.OptionalPhoneError(form.phone)
    case Subject => Forms.RequiredError(form.subject, "Subject is required")
    case Message => MessageError(form.message)
  }

  function Check(form: ContactFormData): Field -> Option<string> {
    f => FieldError(form, f)
  }

  const AllFields: set<Field> := {Name, Email, Phone, Subject, Message}

  /** The messages a validation pass records. */
  function FormErrors(form: ContactFormData): map<Field, string> {
    Forms.ErrorsOver(Check(form), AllFields)
  }

  /** When the form may be sent: a name and a subject that are not blank, a valid e-mail, a
      phone that is empty or valid, and a message that is not blank and is at least ten
      characters long. */
  function FormValid(form: ContactFormData): (ok: bool)
    ensures ok <==> forall f :: f in AllFields ==> FieldError(form, f).None?
  {
    && !IsBlank(form.name)
    && form.email != "" && Helpers.IsValidEmail(form.email)
    && (form.phone == "" || Helpers.IsValidPhone(form.phone))
    && !IsBlank(form.subject)
    && !IsBlank(form.message) && |form.message| >= MinMessageLength
  }

  /** Validation passes exactly when it records no message. */
  lemma FormValidIffNoErrors(form: ContactFormData)
    ensures FormErrors(form) == map[] <==> FormValid(form)
  {
    Forms.NoErrorsIffAllPass(Check(form), AllFields);
  }

  /** Padding counts towards the minimum length: a short message followed by spaces passes. */
  lemma PaddedMessagePasses(word: string, padding: string)
    requires word != "" && forall i :: 0 <= i < |word| ==> !IsWhitespace(word[i])
    requires forall i :: 0 <= i < |padding| ==> padding[i] == ' '
    requires |word| + |padding| >= MinMessageLength
    ensures MessageError(word + padding).None?
  {
    assert (word + padding)[0] == word[0];
  }

  /** The checks of `validateForm()`, filled in field by field. */
  method CollectErrors(form: ContactFormData) returns (m: map<Field, string>)
    ensures m == FormErrors(form)
  {
    ghost var done: set<Field> := {};
    m := Forms.Record(map[], Name, FieldError(form, Name));
    Forms.ErrorsOverAdd(Check(form), done, Name);
    done := done + {Name};
    m := Forms.Record(m, Email, FieldError(form, Email));
    Forms.ErrorsOverAdd(Check(form), done, Email);
    done := done + {Email};
    m := Forms.Record(m, Phone, FieldError(form, Phone));
    Forms.ErrorsOverAdd(Check(form), done, Phone);
    done := done + {Phone};
    m := Forms.Record(m, Subject, FieldError(form, Subject));
    Forms.ErrorsOverAdd(Check(form), done, Subject);
    done := done + {Subject};
    m := Forms.Record(m, Message, FieldError(form, Message));
    Forms.ErrorsOverAdd(Check(form), done, Message);
    done := done + {Message};
    assert done == AllFields;
  }

  /** The page's inputs, messages and whether the confirmation is shown. */
  class Contact {
    var formData: ContactFormData
    var errors: map<Field, string>
    var submitted: bool

    constructor()
      ensures formData == EmptyForm && errors == map[] && !submitted
    {
      formData := EmptyForm;
      errors := map[];
      submitted := false;
    }

    /** `validateForm()`: the messages replace the shown ones, and the form is valid when
        there are none. */
    method ValidateForm() returns (valid: bool)
      modifies this
      ensures formData == old(formData) && submitted == old(submitted)
      ensures errors == FormErrors(formData)
      ensures valid <==> FormValid(formData)
    {
      var newErrors := CollectErrors(formData);
      errors := newErrors;
      FormValidIffNoErrors(formData);
      valid := |newErrors| == 0;
    }

    /** `handleInputChange(field)`: the input is set, and a message shown for it is cleared. */
    method HandleInputChange(field: Field, value: string)
      modifies this
      ensures formData == match field
        case Name => old(formData).(name := value)
        case Email => old(formData).(email := value)
        case Phone => old(formData).(phone := value)
        case Subject => old(formData).(subject := value)
        case Message => old(formData).(message := value)
      ensures errors == Forms.ClearOnEdit(old(errors), field)
      ensures submitted == old(submitted)
    {
      formData := match field
        case Name => formData.(name := value)
        case Email => formData.(email := value)
        case Phone => formData.(phone := value)
        case Subject => formData.(subject := value)
        case Message => formData.(message := value);
      errors := Forms.ClearOnEdit(errors, field);
    }

    /** `handleSubmit()`: a valid form is sent, which shows the confirmation and empties every
        input; an invalid one only shows its messages. */
    method HandleSubmit() returns (sent: bool)
      modifies this
      ensures errors == FormErrors(old(formData))
      ensures sent <==> FormValid(old(formData))
      ensures sent ==> submitted && formData == EmptyForm
      ensures !sent ==> submitted == old(submitted) && formData == old(formData)
    {
      sent := ValidateForm();
      if !sent {
        return;
      }
      submitted := true;
      formData := EmptyForm;
    }
  }
}

/** The account page: the profile form (name and phone), its validation, and the edit, save
    and cancel actions. */
module AccountPage {
  import opened Wrappers
  import opened Text
  import Helpers
  import Forms

  /** The parts of the stored profile the form shows; `None` is a null column, and a missing
      profile is `None` as a whole. */
  datatype Profile = Profile(full_name: Option<string>, phone: Option<string>)

  /** The form's two inputs. */
  datatype ProfileFormData = ProfileFormData(full_name: string, phone: string)

  /** The keys messages are recorded under: the two inputs and the save itself. */
  datatype Field = FullName | Phone | Submit

  /** A profile value as the form shows it: an absent profile or a null column is empty. */
  function ShownValue(profile: Option<Profile>, column: Profile -> Option<string>): (v: string)
    ensures profile.None? ==> v == ""
    ensures profile.Some? && column(profile.value).None? ==> v == ""
    ensures profile.Some? && column(profile.value).Some? ==> v == column(profile.value).value
  {
    if profile.Some? then column(profile.value).GetOr("") else ""
  }

  /** The form filled from the profile. */
  function FormFromProfile(profile: Option<Profile>): ProfileFormData {
    ProfileFormData(ShownValue(profile, (p: Profile) => p.full_name),
                    ShownValue(profile, (p: Profile) => p.phone))
  }

  /** The message for one field; the save key has no rule of its own. */
  function FieldError(form: ProfileFormData, f: Field): (e: Option<string>)
    ensures f == FullName ==> (e.None? <==> !IsBlank(form.full_name))
    ensures f == Phone ==> (e.None? <==> form.phone == "" || Helpers.IsValidPhone(form.phone))
    ensures f == Submit ==> e.None?
  {
    match f
    case FullName => Forms.RequiredError(form.full_name, "Full name is required")
    case Phone => Forms.OptionalPhoneError(form.phone)
    case Submit => None
  }

  function Check(form: ProfileFormData): Field -> Option<string> {
    f => FieldError(form, f)
  }

  const CheckedFields: set<Field> := {FullName, Phone}

  /** The messages a validation pass records. */
  function FormErrors(form: ProfileFormData): map<Field, string> {
    Forms.ErrorsOver(Check(form), CheckedFields)
  }

  /** When the profile may be saved: a name that is not blank and a phone that is empty or
      valid. */
  function FormValid(form: ProfileFormData): (ok: bool)
    ensures ok <==> FieldError(form, FullName).None? && FieldError(form, Phone).None?
  {
    !IsBlank(form.full_name) && (form.phone == "" || Helpers.IsValidPhone(form.phone))
  }

  /** Validation passes exactly when it records no message. */
  lemma FormValidIffNoErrors(form: ProfileFormData)
    ensures FormErrors(form) == map[] <==> FormValid(form)
  {
    Forms.NoErrorsIffAllPass(Check(form), CheckedFields);
  }

  /** The checks of `validateForm()`, filled in field by field. */
  method CollectErrors(form: ProfileFormData) returns (m: map<Field, string>)
    ensures m == FormErrors(form)
  {
    ghost var done: set<Field> := {};
    m := Forms.Record(map[], FullName, FieldError(form, FullName));
    Forms.ErrorsOverAdd(Check(form), done, FullName);
    done := done + {FullName};
    m := Forms.Record(m, Phone, FieldError(form, Phone));
    Forms.ErrorsOverAdd(Check(form), done, Phone);
    done := done + {Phone};
    assert done == CheckedFields;
  }

  /** The outcome of the profile update: done, refused with a message, or thrown. */
  datatype UpdateOutcome = Updated | Refused(message: string) | Threw

  /** The profile row a successful update returns: both columns hold what the form sent. It is
      the partner of `FormFromProfile`: the form shown from it is the form that was saved. */
  function SavedProfile(form: ProfileFormData): (p: Profile)
    ensures p.full_name == Some(form.full_name) && p.phone == Some(form.phone)
    ensures FormFromProfile(Some(p)) == form
  {
    Profile(Some(form.full_name), Some(form.phone))
  }

  /** The page's edit mode, inputs and messages, over the signed-in user's profile. */
  class Account {
    var profile: Option<Profile>
    var isEditing: bool
    var formData: ProfileFormData
    var errors: map<Field, string>

    constructor(p: Option<Profile>)
      ensures profile == p && !isEditing && formData == FormFromProfile(p) && errors == map[]
    {
      profile := p;
      isEditing := false;
      formData := FormFromProfile(p);
      errors := map[];
    }

    /** The edit button. */
    method StartEdit()
      modifies this
      ensures isEditing
      ensures profile == old(profile) && formData == old(formData) && errors == old(errors)
    {
      isEditing := true;
    }

    /** `validateForm()`: the messages replace the shown ones, and the form is valid when
        there are none. */
    method ValidateForm() returns (valid: bool)
      modifies this
      ensures profile == old(profile) && isEditing == old(isEditing) && formData == old(formData)
      ensures errors == FormErrors(formData)
      ensures valid <==> FormValid(formData)
    {
      var newErrors := CollectErrors(formData);
      errors := newErrors;
      FormValidIffNoErrors(formData);
      valid := |newErrors| == 0;
    }

    /** `handleSaveProfile()`. `outcome` is what the profile update does when it is called;
        `called` says whether it was. A refused or thrown update keeps editing on and shows
        the reason under the save key; a done one ends editing with no message, and the auth
        hook replaces the profile with the saved row. */
    method HandleSaveProfile(outcome: UpdateOutcome) returns (called: bool)
      modifies this
      ensures formData == old(formData)
      ensures called <==> FormValid(formData)
      ensures called && outcome.Updated? ==> profile == Some(SavedProfile(formData))
      ensures !(called && outcome.Updated?) ==> profile == old(profile)
      ensures !called ==> errors == FormErrors(formData) && isEditing == old(isEditing)
      ensures called && outcome.Updated? ==> !isEditing && errors == map[]
      ensures called && outcome.Refused? ==>
        isEditing == old(isEditing) && errors == map[Submit := outcome.message]
      ensures called && outcome.Threw? ==>
        isEditing == old(isEditing) && errors == map[Submit := "Failed to update profile"]
    {
      var valid := ValidateForm();
      if !valid {
        return false;
      }
      called := true;
      match outcome
      case Refused(message) =>
        errors := map[Submit := message];
      case Threw =>
        errors := map[Submit := "Failed to update profile"];
      case Updated =>
        profile := Some(SavedProfile(formData));
        isEditing := false;
        errors := map[];
    }

    /** `handleCancelEdit()`: the inputs go back to the profile's values, editing ends and no
        message is shown. */
    method HandleCancelEdit()
      modifies this
      ensures formData == FormFromProfile(profile) && !isEditing && errors == map[]
      ensures profile == old(profile)
    {
      formData := FormFromProfile(profile);
      isEditing := false;
      errors := map[];
    }

    /** `handleInputChange(field, value)` for one of the two inputs: it is set, and a message
        shown for it is cleared. */
    method HandleInputChange(field: Field, value: string)
      requires field != Submit
      modifies this
      ensures field == FullName ==> formData == old(formData).(full_name := value)
      ensures field == Phone ==> formData == old(formData).(phone := value)
      ensures errors == Forms.ClearOnEdit(old(errors), field)
      ensures profile == old(profile) && isEditing == old(isEditing)
    {
      if field == FullName {
        formData := formData.(full_name := value);
      } else {
        formData := formData.(phone := value);
      }
      errors := Forms.ClearOnEdit(errors, field);
    }
  }
}

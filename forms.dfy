/** What the storefront's forms share: the field rules several pages apply, and the map of
    messages a validation pass records, one per failing field. */
module Forms {
  import opened Wrappers
  import opened Text
  import Helpers

  /** The message for a required e-mail field, if it has one. */
  function EmailError(email: string): (m: Option<string>)
    ensures m.None? <==> email != "" && Helpers.IsValidEmail(email)
    ensures email == "" ==> m == Some("Email is required")
    ensures email != "" && !Helpers.IsValidEmail(email) ==>
      m == Some("Please enter a valid email address")
  {
    if email == "" then Some("Email is required")
    else if !Helpers.IsValidEmail(email) then Some("Please enter a valid email address")
    else None
  }

  /** The message for a field that must not be blank (empty after trimming). */
  function RequiredError(value: string, message: string): (m: Option<string>)
    ensures m.None? <==> !IsBlank(value)
    ensures m.Some? ==> m.value == message
  {
    if IsBlank(value) then Some(message) else None
  }

  /** The message for an optional phone field: an empty one passes, any other must be a
      valid number. */
  function OptionalPhoneError(phone: string): (m: Option<string>)
    ensures m.None? <==> phone == "" || Helpers.IsValidPhone(phone)
    ensures m.Some? ==> m.value == "Please enter a valid phone number"
  {
    if phone != "" && !Helpers.IsValidPhone(phone) then Some("Please enter a valid phone number")
    else None
  }

  /** The messages recorded for the fields of `fields` that fail `check`, keyed by field. */
  function ErrorsOver<F(!new)>(check: F -> Option<string>, fields: set<F>): map<F, string> {
    map f | f in fields && check(f).Some? :: check(f).value
  }

  /** Checking one more field adds its message when it fails and changes nothing otherwise. */
  lemma ErrorsOverAdd<F(!new)>(check: F -> Option<string>, fields: set<F>, f: F)
    ensures check(f).Some? ==>
      ErrorsOver(check, fields + {f}) == ErrorsOver(check, fields)[f := check(f).value]
    ensures check(f).None? ==> ErrorsOver(check, fields + {f}) == ErrorsOver(check, fields)
  {
  }

  /** No message is recorded exactly when every checked field passes. */
  lemma NoErrorsIffAllPass<F(!new)>(check: F -> Option<string>, fields: set<F>)
    ensures ErrorsOver(check, fields) == map[] <==> forall f :: f in fields ==> check(f).None?
  {
    var m := ErrorsOver(check, fields);
    forall f | f in fields && check(f).Some?
      ensures f in m && m != map[]
    {
    }
    if m != map[] {
      var f :| f in m;
      assert f in fields && check(f).Some?;
    }
  }

  /** One `if` of a validation pass: a field with a message gets it recorded. */
  method Record<F>(m: map<F, string>, f: F, e: Option<string>) returns (r: map<F, string>)
    ensures e.Some? ==> r == m[f := e.value]
    ensures e.None? ==> r == m
  {
    r := m;
    if e.Some? {
      r := r[f := e.value];
    }
  }

  /** The messages left after the user edits a field: a message shown for that field is
      cleared, and every other field keeps its own. */
  function ClearOnEdit<F(!new)>(errors: map<F, string>, f: F): (r: map<F, string>)
    ensures f in r ==> f in errors && errors[f] == "" && r[f] == ""
    ensures forall g :: g != f ==> (g in r <==> g in errors)
    ensures forall g :: g != f && g in r ==> r[g] == errors[g]
  {
    if f in errors && errors[f] != "" then errors - {f} else errors
  }
}

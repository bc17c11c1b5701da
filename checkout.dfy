/** The checkout page: a three-step form (contact, shipping, payment) with per-step
    validation, the order totals, and the order record it builds on submission. */
module CheckoutPage {
  import opened Wrappers
  import opened Text
  import opened Types
  import Helpers
  import CartHook
  import Forms

  /** The form's state. `paymentMethod` is `phonepe` or `cod`. */
  datatype CheckoutFormData = CheckoutFormData(
    email: string,
    phone: string,
    shippingAddress: ShippingAddress,
    paymentMethod: string,
    notes: string)

  const AddressPrefix: string := "shippingAddress."

  // ----- Validation ----------------------------------------------------------------------

  /** The message for the phone field of step 1, if it has one. */
  function PhoneError(phone: string): (m: Option<string>)
    ensures m.None? <==> phone != "" && Helpers.IsValidPhone(phone)
  {
    if phone == "" then Some("Phone number is required")
    else if !Helpers.IsValidPhone(phone) then Some("Please enter a valid phone number")
    else None
  }

  /** The fields validation can flag. */
  datatype Field = Email | Phone | FullName | AddressLine1 | City | State | PostalCode

  /** The key under which a field's message is recorded. */
  function Key(f: Field): string {
    match f
    case Email => "email"
    case Phone => "phone"
    case FullName => "shippingAddress.full_name"
    case AddressLine1 => "shippingAddress.address_line_1"
    case City => "shippingAddress.city"
    case State => "shippingAddress.state"
    case PostalCode => "shippingAddress.postal_code"
  }

  /** The field recorded under a key, if any. */
  function FieldOfKey(key: string): (f: Option<Field>)
    ensures f.Some? ==> Key(f.value) == key
  {
    if key == "email" then Some(Email)
    else if key == "phone" then Some(Phone)
    else if key == "shippingAddress.full_name" then Some(FullName)
    else if key == "shippingAddress.address_line_1" then Some(AddressLine1)
    else if key == "shippingAddress.city" then Some(City)
    else if key == "shippingAddress.state" then Some(State)
    else if key == "shippingAddress.postal_code" then Some(PostalCode)
    else None
  }

  /** Distinct fields have distinct keys, and every key reads back as its field. */
  lemma KeyRoundTrip(f: Field)
    ensures FieldOfKey(Key(f)) == Some(f)
  {
  }

  /** The fields a step checks: contact details in step 1, the address in step 2. */
  function StepFields(step: int): set<Field> {
    if step == 1 then {Email, Phone}
    else if step == 2 then {FullName, AddressLine1, City, State, PostalCode}
    else {}
  }

  /** The message for a field, if its current value does not pass: none exactly when the
      field's rule holds. */
  function FieldError(form: CheckoutFormData, f: Field): (e: Option<string>)
    ensures f == Email ==> (e.None? <==> form.email != "" && Helpers.IsValidEmail(form.email))
    ensures f == Phone ==> (e.None? <==> form.phone != "" && Helpers.IsValidPhone(form.phone))
    ensures f == FullName ==> (e.None? <==> !IsBlank(form.shippingAddress.full_name))
    ensures f == AddressLine1 ==> (e.None? <==> !IsBlank(form.shippingAddress.address_line_1))
    ensures f == City ==> (e.None? <==> !IsBlank(form.shippingAddress.city))
    ensures f == State ==> (e.None? <==> !IsBlank(form.shippingAddress.state))
    ensures f == PostalCode ==> (e.None? <==> !IsBlank(form.shippingAddress.postal_code))
  {
    var a := form.shippingAddress;
    match f
    case Email => Forms.EmailError(form.email)
    case Phone => PhoneError(form.phone)
    case FullName => Forms.RequiredError(a.full_name, "Full name is required")
    case AddressLine1 => Forms.RequiredError(a.address_line_1, "Address is required")
    case City => Forms.RequiredError(a.city, "City is required")
    case State => Forms.RequiredError(a.state, "State is required")
    case PostalCode => Forms.RequiredError(a.postal_code, "Postal code is required")
  }

  /** When a step lets the buyer through: step 1 needs a valid e-mail and phone, step 2 the
      five address fields filled in (the second address line is optional), and any other step
      nothing. */
  function StepValid(form: CheckoutFormData, step: int): (ok: bool)
    ensures step == 1 ==> (ok <==> FieldError(form, Email).None? && FieldError(form, Phone).None?)
    ensures step == 2 ==>
      (ok <==> FieldError(form, FullName).None? && FieldError(form, AddressLine1).None? &&
               FieldError(form, City).None? && FieldError(form, State).None? &&
               FieldError(form, PostalCode).None?)
    ensures step != 1 && step != 2 ==> ok
  {
    var a := form.shippingAddress;
    && (step == 1 ==> form.email != "" && Helpers.IsValidEmail(form.email) &&
                      form.phone != "" && Helpers.IsValidPhone(form.phone))
    && (step == 2 ==> !IsBlank(a.full_name) && !IsBlank(a.address_line_1) && !IsBlank(a.city) &&
                      !IsBlank(a.state) && !IsBlank(a.postal_code))
  }

  /** Step 1 passes exactly when neither contact field has a message. */
  lemma StepOneChecks(form: CheckoutFormData)
    ensures StepValid(form, 1) <==> FieldError(form, Email).None? && FieldError(form, Phone).None?
    ensures (forall f :: f in StepFields(1) ==> FieldError(form, f).None?) <==>
      FieldError(form, Email).None? && FieldError(form, Phone).None?
  {
  }

  /** Step 2 passes exactly when none of the five address fields has a message. */
  lemma StepTwoChecks(form: CheckoutFormData)
    ensures StepValid(form, 2) <==>
      (FieldError(form, FullName).None? && FieldError(form, AddressLine1).None? &&
       FieldError(form, City).None? && FieldError(form, State).None? &&
       FieldError(form, PostalCode).None?)
    ensures (forall f :: f in StepFields(2) ==> FieldError(form, f).None?) <==>
      (FieldError(form, FullName).None? && FieldError(form, AddressLine1).None? &&
       FieldError(form, City).None? && FieldError(form, State).None? &&
       FieldError(form, PostalCode).None?)
  {
  }

  /** A step is valid exactly when none of the fields it checks has a message; a step other
      than 1 and 2 checks nothing and is always valid. */
  lemma StepValidIffNoErrors(form: CheckoutFormData, step: int)
    ensures StepValid(form, step) <==>
      forall f :: f in StepFields(step) ==> FieldError(form, f).None?
    ensures step != 1 && step != 2 ==> StepValid(form, step)
  {
    if step == 1 {
      StepOneChecks(form);
    } else if step == 2 {
      StepTwoChecks(form);
    }
  }

  /** The second address line never holds a step back. */
  lemma SecondAddressLineOptional(form: CheckoutFormData, line2: Option<string>)
    ensures StepValid(form.(shippingAddress := form.shippingAddress.(address_line_2 := line2)), 2)
      <==> StepValid(form, 2)
  {
  }

  // ----- Input changes -----------------------------------------------------------------------

  /** An address field set by name; a name the address does not have changes nothing. */
  function SetAddressField(a: ShippingAddress, name: string, value: string): (r: ShippingAddress)
    ensures name == "full_name" ==> r == a.(full_name := value)
    ensures name == "phone" ==> r == a.(phone := value)
    ensures name == "address_line_1" ==> r == a.(address_line_1 := value)
    ensures name == "address_line_2" ==> r == a.(address_line_2 := Some(value))
    ensures name == "city" ==> r == a.(city := value)
    ensures name == "state" ==> r == a.(state := value)
    ensures name == "postal_code" ==> r == a.(postal_code := value)
    ensures name == "country" ==> r == a.(country := value)
    ensures (name !in {"full_name", "phone", "address_line_1", "address_line_2", "city", "state",
                       "postal_code", "country"}) ==> r == a
  {
    if name == "full_name" then a.(full_name := value)
    else if name == "phone" then a.(phone := value)
    else if name == "address_line_1" then a.(address_line_1 := value)
    else if name == "address_line_2" then a.(address_line_2 := Some(value))
    else if name == "city" then a.(city := value)
    else if name == "state" then a.(state := value)
    else if name == "postal_code" then a.(postal_code := value)
    else if name == "country" then a.(country := value)
    else a
  }

  /** The form after `handleInputChange(field, value)`: a `shippingAddress.` key changes only
      that address field, any other key only that top-level field. */
  function WithField(form: CheckoutFormData, field: string, value: string): (r: CheckoutFormData)
    ensures StartsWith(field, AddressPrefix) ==>
      r == form.(shippingAddress := SetAddressField(form.shippingAddress, field[|AddressPrefix|..], value))
    ensures !StartsWith(field, AddressPrefix) ==> r.shippingAddress == form.shippingAddress
    ensures !StartsWith(field, AddressPrefix) && field !in {"email", "phone", "paymentMethod", "notes"}
      ==> r == form
  {
    if StartsWith(field, AddressPrefix) then
      form.(shippingAddress := SetAddressField(form.shippingAddress, field[|AddressPrefix|..], value))
    else if field == "email" then form.(email := value)
    else if field == "phone" then form.(phone := value)
    else if field == "paymentMethod" then form.(paymentMethod := value)
    else if field == "notes" then form.(notes := value)
    else form
  }

  /** Typing into the contact fields never disturbs the address, and typing into an address
      field never disturbs the contact fields, payment method or notes. */
  lemma InputChangesOnlyItsField(form: CheckoutFormData, field: string, value: string)
    ensures var r := WithField(form, field, value);
      && (field == "email" ==> r == form.(email := value))
      && (field == "phone" ==> r == form.(phone := value))
      && (StartsWith(field, AddressPrefix) ==>
            r.email == form.email && r.phone == form.phone &&
            r.paymentMethod == form.paymentMethod && r.notes == form.notes)
  {
    if field == "email" || field == "phone" {
      assert !StartsWith(field, AddressPrefix);
    }
  }

  // ----- Totals and the order --------------------------------------------------------

  /** The amounts shown and stored: shipping at the default zone's rate and 5% tax. */
  datatype Totals = Totals(subtotal: int, shipping: int, tax: int, total: int)

  function ComputeTotals(subtotal: int): (t: Totals)
    ensures t.subtotal == subtotal && t.total == t.subtotal + t.shipping + t.tax
    ensures t.shipping == Helpers.CalculateShipping(subtotal, Helpers.DefaultZone)
    ensures t.tax == Helpers.CalculateTax(subtotal)
  {
    var shipping := Helpers.CalculateShipping(subtotal, Helpers.DefaultZone);
    var tax := Helpers.CalculateTax(subtotal);
    Totals(subtotal, shipping, tax, subtotal + shipping + tax)
  }

  /** Below 2000 the buyer pays 50 for shipping, from 2000 up nothing; tax is always added. */
  lemma TotalsByThreshold(subtotal: int)
    ensures subtotal < 2000 ==> ComputeTotals(subtotal).total == subtotal + 50 + Helpers.CalculateTax(subtotal)
    ensures subtotal >= 2000 ==> ComputeTotals(subtotal).total == subtotal + Helpers.CalculateTax(subtotal)
    ensures subtotal >= 0 ==> ComputeTotals(subtotal).total >= subtotal
  {
    var t := Helpers.CalculateTax(subtotal);
    assert 20 * t - 10 <= subtotal < 20 * t + 10;
  }

  /** A cart line as an order line: the quantity becomes `qty`. */
  function ToOrderItem(item: CartItem): (o: OrderItem)
    ensures o.qty == item.quantity && o.product_id == item.product_id && o.price == item.price
    ensures o.title == item.title && o.unit == item.unit && o.image_url == item.image_url
  {
    OrderItem(item.product_id, item.title, item.quantity, item.price, item.unit, item.image_url)
  }

  function ToOrderItems(items: seq<CartItem>): (r: seq<OrderItem>)
    ensures |r| == |items|
    ensures forall i :: 0 <= i < |items| ==> r[i] == ToOrderItem(items[i])
  {
    seq(|items|, i requires 0 <= i < |items| => ToOrderItem(items[i]))
  }

  /** The sum of price times quantity over order lines. */
  function LinesTotal(lines: seq<OrderItem>): int {
    if lines == [] then 0 else lines[0].price * lines[0].qty + LinesTotal(lines[1..])
  }

  /** The sum of the quantities over order lines. */
  function LinesQuantity(lines: seq<OrderItem>): int {
    if lines == [] then 0 else lines[0].qty + LinesQuantity(lines[1..])
  }

  /** The order's lines add up to the cart's total and to its item count. */
  lemma {:induction false} OrderLinesMatchCart(items: seq<CartItem>)
    ensures LinesTotal(ToOrderItems(items)) == Helpers.CalculateCartTotal(items)
    ensures LinesQuantity(ToOrderItems(items)) == CartHook.ItemCount(items)
  {
    if items != [] {
      OrderLinesMatchCart(items[1..]);
      assert ToOrderItems(items)[1..] == ToOrderItems(items[1..]);
    }
  }

  /** The order record the page submits. */
  datatype OrderData = OrderData(
    user_id: Option<string>,
    items: seq<OrderItem>,
    totals: Totals,
    status: OrderStatus,
    shipping_address: ShippingAddress,
    notes: string)

  function BuildOrder(userId: Option<string>, items: seq<CartItem>, form: CheckoutFormData): (o: OrderData)
    ensures o.items == ToOrderItems(items)
    ensures o.totals == ComputeTotals(Helpers.CalculateCartTotal(items))
    ensures o.status == Pending
    ensures o.shipping_address == form.shippingAddress && o.notes == form.notes
    ensures o.user_id == userId
  {
    OrderData(userId, ToOrderItems(items), ComputeTotals(Helpers.CalculateCartTotal(items)),
              if form.paymentMethod == "cod" then Pending else Pending,
              form.shippingAddress, form.notes)
  }

  /** The check of one field of the form. */
  function Check(form: CheckoutFormData): Field -> Option<string> {
    f => FieldError(form, f)
  }

  /** The messages a step records, keyed by field. */
  function StepErrors(form: CheckoutFormData, step: int): map<Field, string> {
    Forms.ErrorsOver(Check(form), StepFields(step))
  }

  /** The recorded messages are those of the step's fields that fail, and there are none
      exactly when the step is valid. */
  lemma StepErrorsMeaning(form: CheckoutFormData, step: int)
    ensures forall f :: f in StepErrors(form, step) <==>
      f in StepFields(step) && FieldError(form, f).Some?
    ensures StepErrors(form, step) == map[] <==> StepValid(form, step)
  {
    StepValidIffNoErrors(form, step);
    Forms.NoErrorsIffAllPass(Check(form), StepFields(step));
  }

  /** Step 1's checks, filled in field by field as `validateStep(1)` does. */
  method CollectContactErrors(form: CheckoutFormData) returns (m: map<Field, string>)
    ensures m == StepErrors(form, 1)
  {
    ghost var done: set<Field> := {};
    m := Forms.Record(map[], Email, FieldError(form, Email));
    Forms.ErrorsOverAdd(Check(form), done, Email);
    done := done + {Email};
    m := Forms.Record(m, Phone, FieldError(form, Phone));
    Forms.ErrorsOverAdd(Check(form), done, Phone);
    done := done + {Phone};
    assert done == StepFields(1);
  }

  /** Step 2's checks, filled in field by field as `validateStep(2)` does. */
  method CollectAddressErrors(form: CheckoutFormData) returns (m: map<Field, string>)
    ensures m == StepErrors(form, 2)
  {
    ghost var done: set<Field> := {};
    m := Forms.Record(map[], FullName, FieldError(form, FullName));
    Forms.ErrorsOverAdd(Check(form), done, FullName);
    done := done + {FullName};
    m := Forms.Record(m, AddressLine1, FieldError(form, AddressLine1));
    Forms.ErrorsOverAdd(Check(form), done, AddressLine1);
    done := done + {AddressLine1};
    m := Forms.Record(m, City, FieldError(form, City));
    Forms.ErrorsOverAdd(Check(form), done, City);
    done := done + {City};
    m := Forms.Record(m, State, FieldError(form, State));
    Forms.ErrorsOverAdd(Check(form), done, State);
    done := done + {State};
    m := Forms.Record(m, PostalCode, FieldError(form, PostalCode));
    Forms.ErrorsOverAdd(Check(form), done, PostalCode);
    done := done + {PostalCode};
    assert done == StepFields(2);
  }

  // ----- The page's state --------------------------------------------------------------------

  /** The page's `formData`, `errors` and `currentStep` state. */
  class Checkout {
    var formData: CheckoutFormData
    var errors: map<Field, string>
    var currentStep: int

    /** The opening state: e-mail, phone and name from the signed-in user where known, the
        country set to India, step 1 and no errors. */
    constructor(userEmail: Option<string>, profilePhone: Option<string>,
                profileName: Option<string>)
      ensures formData.email == userEmail.GetOr("")
      ensures formData.phone == profilePhone.GetOr("")
      ensures formData.shippingAddress ==
        ShippingAddress(profileName.GetOr(""), profilePhone.GetOr(""), "", Some(""), "", "", "",
                        "India")
      ensures formData.paymentMethod == "phonepe" && formData.notes == ""
      ensures errors == map[] && currentStep == 1
    {
      formData := CheckoutFormData(userEmail.GetOr(""), profilePhone.GetOr(""),
        ShippingAddress(profileName.GetOr(""), profilePhone.GetOr(""), "", Some(""), "", "", "",
                        "India"),
        "phonepe", "");
      errors := map[];
      currentStep := 1;
    }

    /** `validateStep(step)`: the messages replace the shown errors, and the step is valid
        when there are none. */
    method ValidateStep(step: int) returns (valid: bool)
      modifies this
      ensures formData == old(formData) && currentStep == old(currentStep)
      ensures errors == StepErrors(formData, step)
      ensures forall f :: f in errors <==> f in StepFields(step) && FieldError(formData, f).Some?
      ensures valid <==> StepValid(formData, step)
    {
      var newErrors: map<Field, string> := map[];
      if step == 1 {
        newErrors := CollectContactErrors(formData);
      }
      if step == 2 {
        newErrors := CollectAddressErrors(formData);
      }
      errors := newErrors;
      StepErrorsMeaning(formData, step);
      valid := |newErrors| == 0;
    }

    /** `handleInputChange(field, value)`: the field is set, and a message shown for that
        field is cleared. */
    method HandleInputChange(field: string, value: string)
      modifies this
      ensures formData == WithField(old(formData), field, value)
      ensures var f := FieldOfKey(field);
        errors == if f.Some? then Forms.ClearOnEdit(old(errors), f.value) else old(errors)
      ensures currentStep == old(currentStep)
    {
      formData := WithField(formData, field, value);
      var f := FieldOfKey(field);
      if f.Some? {
        errors := Forms.ClearOnEdit(errors, f.value);
      }
    }

    /** `handleNextStep()`: one step forward exactly when the current step validates. */
    method HandleNextStep()
      modifies this
      ensures formData == old(formData)
      ensures errors == StepErrors(formData, old(currentStep))
      ensures StepValid(formData, old(currentStep)) ==> currentStep == old(currentStep) + 1
      ensures !StepValid(formData, old(currentStep)) ==> currentStep == old(currentStep)
    {
      var valid := ValidateStep(currentStep);
      if valid {
        currentStep := currentStep + 1;
      }
    }

    /** `handlePrevStep()`: one step back. */
    method HandlePrevStep()
      modifies this
      ensures currentStep == old(currentStep) - 1
      ensures formData == old(formData) && errors == old(errors)
    {
      currentStep := currentStep - 1;
    }

    /** `handleSubmitOrder()`: the shipping step is validated again; if it passes, the order
        is built from the cart and the cart is emptied. */
    method HandleSubmitOrder(userId: Option<string>, cart: CartHook.Cart)
      returns (order: Option<OrderData>)
      modifies this, cart
      ensures formData == old(formData) && currentStep == old(currentStep)
      ensures errors == StepErrors(formData, 2)
      ensures order.Some? <==> StepValid(formData, 2)
      ensures order.Some? ==> order.value == BuildOrder(userId, old(cart.items), formData)
      ensures order.Some? ==> cart.items == []
      ensures order.None? ==> cart.items == old(cart.items)
    {
      var valid := ValidateStep(2);
      if !valid {
        return None;
      }
      order := Some(BuildOrder(userId, cart.items, formData));
      cart.ClearCart();
    }
  }
}

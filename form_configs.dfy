/**
 * The declarative form definitions of `form-configs.ts`: each field's initial
 * value and the newer validators it runs, the conversion of submitted form
 * values into model records, and error collection.
 */
module FormConfigs {
  import opened Wrappers
  import opened Models
  import opened Forms

  /** A validator of the newer generation as a form field lists it, with its configured message. */
  datatype Rule =
    | Required(message: string)
    | Email(message: string)
    | Phone(message: string)
    | ZipCode(message: string)
    | CreditCard(message: string)
    | CardExpiration(message: string)
    | Cvv(message: string)
    | MinLength(min: int, message: string)
    | Sanitize(message: string)

  datatype FieldValue = Text(text: string) | Flag(flag: bool)

  datatype FieldConfig = FieldConfig(name: string, value: FieldValue, validators: seq<Rule>)

  /** Sanitizing is configured on a field together with a required check. */
  function RequiredSanitized(name: string, requiredMessage: string): FieldConfig {
    FieldConfig(name, Text(""), [Required(requiredMessage), Sanitize("Invalid characters detected")])
  }

  /** `getCustomerFormConfig`: the customer's values, "" for anything absent. */
  function GetCustomerFormConfig(customer: Option<Customer>): (r: seq<FieldConfig>)
    ensures |r| == 6
    ensures customer.None? ==> forall i :: 0 <= i < |r| ==> r[i].value == Text("")
    ensures customer.Some? ==>
      && r[0].value == Text(customer.value.customerId)
      && r[1].value == Text(customer.value.userName)
      && r[2].value == Text(customer.value.email.GetOr(""))
      && r[3].value == Text(customer.value.firstName.GetOr(""))
      && r[4].value == Text(customer.value.lastName.GetOr(""))
      && r[5].value == Text(customer.value.phone.GetOr(""))
  {
    if customer.Some? then
      CustomerFields(customer.value.customerId, customer.value.userName, customer.value.email.GetOr(""),
                     customer.value.firstName.GetOr(""), customer.value.lastName.GetOr(""), customer.value.phone.GetOr(""))
    else CustomerFields("", "", "", "", "", "")
  }

  /** The customer form's fields with the given initial values. */
  function CustomerFields(id: string, userName: string, email: string, firstName: string, lastName: string, phone: string): seq<FieldConfig> {
    [
      FieldConfig("customer_id", Text(id), []),
      FieldConfig("user_name", Text(userName), [Required("Username is required")]),
      FieldConfig("email", Text(email), [Required("Email is required"), Email("Please enter a valid email address")]),
      FieldConfig("first_name", Text(firstName), [Required("First name is required"), Sanitize("Invalid characters detected")]),
      FieldConfig("last_name", Text(lastName), [Required("Last name is required"), Sanitize("Invalid characters detected")]),
      FieldConfig("phone", Text(phone), [Phone("Please enter a valid phone number")])
    ]
  }

  /** `getAddressFormConfig`: 'shipping' as the address type, not default, everything else empty. */
  function GetAddressFormConfig(): (r: seq<FieldConfig>)
    ensures |r| == 10
    ensures r[1].value == Text("shipping") && r[9].value == Flag(false)
    ensures forall i :: 0 <= i < |r| && i != 1 && i != 9 ==> r[i].value == Text("")
  {
    [
      FieldConfig("address_id", Text(""), []),
      FieldConfig("address_type", Text("shipping"), [Required("Address type is required")]),
      RequiredSanitized("first_name", "First name is required"),
      RequiredSanitized("last_name", "Last name is required"),
      RequiredSanitized("address_1", "Address is required"),
      FieldConfig("address_2", Text(""), [Sanitize("Invalid characters detected")]),
      RequiredSanitized("city", "City is required"),
      FieldConfig("state", Text(""), [Required("State is required"), MinLength(2, "State must be 2 characters"), Sanitize("Invalid characters detected")]),
      FieldConfig("zip", Text(""), [Required("ZIP code is required"), ZipCode("Please enter a valid ZIP code")]),
      FieldConfig("is_default", Flag(false), [])
    ]
  }

  /** `getCreditCardFormConfig`: 'visa' as the card type, not default, everything else empty. */
  function GetCreditCardFormConfig(): (r: seq<FieldConfig>)
    ensures |r| == 7
    ensures r[1].value == Text("visa") && r[6].value == Flag(false)
    ensures forall i :: 0 <= i < |r| && i != 1 && i != 6 ==> r[i].value == Text("")
  {
    [
      FieldConfig("card_id", Text(""), []),
      FieldConfig("card_type", Text("visa"), [Required("Card type is required")]),
      FieldConfig("card_number", Text(""), [Required("Card number is required"), Rule.CreditCard("Please enter a valid credit card number")]),
      RequiredSanitized("card_holder_name", "Cardholder name is required"),
      FieldConfig("card_expires", Text(""), [Required("Expiration date is required"), CardExpiration("Please enter a valid expiration date (MM/YY)")]),
      FieldConfig("card_cvv", Text(""), [Required("CVV is required"), Cvv("Please enter a valid CVV")]),
      FieldConfig("is_default", Flag(false), [])
    ]
  }

  /** The identifier fields and the default flag. */
  predicate IsKeyName(name: string) {
    name == "customer_id" || name == "address_id" || name == "card_id" || name == "is_default"
  }

  /** The length and the first letters of a key name. */
  predicate KeyShaped(name: string) {
    || (|name| == 11 && name[0] == 'c' && name[1] == 'u')
    || (|name| == 7 && name[0] == 'c' && name[1] == 'a')
    || (|name| == 10 && name[0] == 'a')
    || (|name| == 10 && name[0] == 'i')
  }

  /** The length and the first letters tell a key name from the other field names. */
  lemma KeyNameShape(name: string)
    requires IsKeyName(name)
    ensures KeyShaped(name)
  {
  }

  /**
   * A field is well formed when it is not validated at all if it is an
   * identifier or the default flag, checks `required` before anything else,
   * and configures every message, so the newer validators never fall back to
   * their defaults.
   */
  predicate FieldWellFormed(field: FieldConfig) {
    && (IsKeyName(field.name) ==> field.validators == [])
    && (forall j :: 0 <= j < |field.validators| && field.validators[j].Required? ==> j == 0)
    && (forall j :: 0 <= j < |field.validators| ==> field.validators[j].message != "")
  }

  predicate WellFormed(config: seq<FieldConfig>) {
    forall i :: 0 <= i < |config| ==> FieldWellFormed(config[i])
  }

  /** A field passes when it has no validators or its name is not shaped like a key name, and its validators are in order and carry messages. */
  lemma NamedFieldWellFormed(field: FieldConfig)
    requires field.validators != [] ==> !KeyShaped(field.name)
    requires forall j :: 0 < j < |field.validators| ==> !field.validators[j].Required?
    requires forall j :: 0 <= j < |field.validators| ==> field.validators[j].message != ""
    ensures FieldWellFormed(field)
  {
    if IsKeyName(field.name) {
      KeyNameShape(field.name);
    }
  }

  /** The customer form keeps its identifier unvalidated, puts `required` first and configures every message. */
  lemma CustomerConfigWellFormed(customer: Option<Customer>)
    ensures WellFormed(GetCustomerFormConfig(customer))
  {
    if customer.Some? {
      var v := customer.value;
      CustomerFieldsWellFormed(v.customerId, v.userName, v.email.GetOr(""), v.firstName.GetOr(""),
                               v.lastName.GetOr(""), v.phone.GetOr(""));
    } else {
      CustomerFieldsWellFormed("", "", "", "", "", "");
    }
  }

  lemma CustomerFieldsWellFormed(id: string, userName: string, email: string, firstName: string, lastName: string, phone: string)
    ensures WellFormed(CustomerFields(id, userName, email, firstName, lastName, phone))
  {
    var c := CustomerFields(id, userName, email, firstName, lastName, phone);
    NamedFieldWellFormed(c[0]);
    NamedFieldWellFormed(c[1]);
    NamedFieldWellFormed(c[2]);
    NamedFieldWellFormed(c[3]);
    NamedFieldWellFormed(c[4]);
    NamedFieldWellFormed(c[5]);
  }

  /** The address form keeps its identifier and default flag unvalidated, puts `required` first and configures every message. */
  lemma AddressConfigWellFormed()
    ensures WellFormed(GetAddressFormConfig())
  {
    var a := GetAddressFormConfig();
    forall i | 0 <= i < |a| ensures FieldWellFormed(a[i]) {
      if IsKeyName(a[i].name) {
        KeyNameShape(a[i].name);
      }
    }
  }

  /** The card form keeps its identifier and default flag unvalidated, puts `required` first and configures every message. */
  lemma CardConfigWellFormed()
    ensures WellFormed(GetCreditCardFormConfig())
  {
    var k := GetCreditCardFormConfig();
    forall i | 0 <= i < |k| ensures FieldWellFormed(k[i]) {
      if IsKeyName(k[i].name) {
        KeyNameShape(k[i].name);
      }
    }
  }

  /** The value of the customer form. */
  datatype CustomerFormValue = CustomerFormValue(
    customerId: string, userName: string, email: string, firstName: string, lastName: string, phone: string)

  /** `createCustomerFromForm`: the form's fields, with the three lists always empty. */
  function CreateCustomerFromForm(v: CustomerFormValue): (r: Customer)
    ensures r.addresses == Some([]) && r.creditCards == Some([]) && r.customerStatuses == Some([])
    ensures r.customerId == v.customerId && r.userName == v.userName
    ensures r.email == Some(v.email) && r.firstName == Some(v.firstName)
    ensures r.lastName == Some(v.lastName) && r.phone == Some(v.phone)
  {
    Customer(v.customerId, v.userName, Some(v.email), Some(v.firstName), Some(v.lastName), Some(v.phone),
             Some([]), Some([]), Some([]))
  }

  /** `x || undefined` for an identifier: an empty one is absent. */
  function IdOrAbsent(id: string): (r: Option<string>)
    ensures r.None? <==> id == ""
    ensures r.Some? ==> r.value == id
  {
    if id == "" then None else Some(id)
  }

  /** The value of the address form. */
  datatype AddressFormValue = AddressFormValue(
    addressId: string, addressType: string, firstName: string, lastName: string,
    address1: string, address2: string, city: string, state: string, zip: string, isDefault: bool)

  /** `createAddressFromForm`: the form's fields, the empty identifier turned into an absent one. */
  function CreateAddressFromForm(v: AddressFormValue): (r: Address)
    ensures r.addressId.None? <==> v.addressId == ""
    ensures r.addressId.Some? ==> r.addressId.value == v.addressId
    ensures r.addressType == v.addressType && r.firstName == v.firstName && r.lastName == v.lastName
    ensures r.address1 == v.address1 && r.address2 == Some(v.address2)
    ensures r.city == v.city && r.state == v.state && r.zip == v.zip && r.isDefault == v.isDefault
  {
    Address(IdOrAbsent(v.addressId), v.addressType, v.firstName, v.lastName, v.address1, Some(v.address2),
            v.city, v.state, v.zip, v.isDefault)
  }

  /** The value of the credit-card form. */
  datatype CardFormValue = CardFormValue(
    cardId: string, cardType: string, cardNumber: string, cardHolderName: string,
    cardExpires: string, cardCvv: string, isDefault: bool)

  /** `createCreditCardFromForm`: the form's fields, the empty identifier turned into an absent one. */
  function CreateCreditCardFromForm(v: CardFormValue): (r: CreditCard)
    ensures r.cardId.None? <==> v.cardId == ""
    ensures r.cardId.Some? ==> r.cardId.value == v.cardId
    ensures r.cardType == v.cardType && r.cardNumber == v.cardNumber && r.cardHolderName == v.cardHolderName
    ensures r.cardExpires == v.cardExpires && r.cardCvv == v.cardCvv && r.isDefault == v.isDefault
  {
    Models.CreditCard(IdOrAbsent(v.cardId), v.cardType, v.cardNumber, v.cardHolderName, v.cardExpires, v.cardCvv, v.isDefault)
  }

  /** Turning a card back into form values and back into a card gives the same card, as long as a present identifier is not empty. */
  lemma CardRoundTrip(card: CreditCard)
    requires card.cardId != Some("")
    ensures CreateCreditCardFromForm(CardFormValue(card.cardId.GetOr(""), card.cardType, card.cardNumber,
              card.cardHolderName, card.cardExpires, card.cardCvv, card.isDefault)) == card
  {
  }

  /** `extractFormErrors`: the messages of an invalid form, control by control; none for a form that is not invalid. */
  method ExtractFormErrors(form: seq<Control>) returns (errors: seq<string>)
    ensures errors == (if FormInvalid(form) then Messages(form) else [])
    ensures forall i :: 0 <= i < |errors| ==> errors[i] != ""
  {
    errors := CollectErrors(form);
  }

  /** `validateForm`: valid when the form is not invalid and no message was collected. */
  method ValidateForm(form: seq<Control>) returns (isValid: bool, errors: seq<string>)
    ensures isValid <==> !FormInvalid(form)
    ensures isValid ==> errors == []
    ensures !isValid ==> errors == Messages(form)
  {
    var collected := ExtractFormErrors(form);
    isValid := !FormInvalid(form) && |collected| == 0;
    errors := ExtractFormErrors(form);
  }
}

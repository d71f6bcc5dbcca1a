/**
 * The checkout form of `src/components/checkout/CheckoutForm.tsx`: the
 * nine form fields, `validateForm` recording a message per invalid field,
 * `handleChange` updating one field and clearing its message, and the
 * validation guard in `handleSubmit` in front of `clearCart`.
 */
module CheckoutForm {
  import opened Common
  import opened CartContext

  datatype Field =
    | FirstName | LastName | Email | Address | City | PostalCode | CardNumber | ExpiryDate | Cvv

  /**
   * One value per form field: the form data itself (`Fields<string>`) and
   * its error record (`Partial<FormData>`, as `Fields<Option<string>>`,
   * where `None` is a missing or `undefined` entry).
   */
  datatype Fields<T> = Fields(
    firstName: T,
    lastName: T,
    email: T,
    address: T,
    city: T,
    postalCode: T,
    cardNumber: T,
    expiryDate: T,
    cvv: T)
  {
    /** `record[name]` */
    function Get(f: Field): T
    {
      match f
      case FirstName => firstName
      case LastName => lastName
      case Email => email
      case Address => address
      case City => city
      case PostalCode => postalCode
      case CardNumber => cardNumber
      case ExpiryDate => expiryDate
      case Cvv => cvv
    }

    /** `{ ...prev, [name]: value }`: only the named field changes. */
    function With(f: Field, value: T): (r: Fields<T>)
      ensures r.Get(f) == value
      ensures forall g :: g != f ==> r.Get(g) == Get(g)
    {
      match f
      case FirstName => this.(firstName := value)
      case LastName => this.(lastName := value)
      case Email => this.(email := value)
      case Address => this.(address := value)
      case City => this.(city := value)
      case PostalCode => this.(postalCode := value)
      case CardNumber => this.(cardNumber := value)
      case ExpiryDate => this.(expiryDate := value)
      case Cvv => this.(cvv := value)
    }
  }

  type FormData = Fields<string>
  type Errors = Fields<Option<string>>

  const EmptyForm: FormData := Fields("", "", "", "", "", "", "", "", "")
  const NoErrors: Errors := Fields(None, None, None, None, None, None, None, None, None)

  /** The messages `validateForm` records. */
  const FirstNameRequired: string := "First name is required"
  const LastNameRequired: string := "Last name is required"
  const EmailRequired: string := "Email is required"
  const AddressRequired: string := "Address is required"
  const CityRequired: string := "City is required"
  const PostalCodeRequired: string := "Postal code is required"
  const CardNumberRequired: string := "Card number is required"
  const ExpiryDateRequired: string := "Expiry date is required"
  const CvvRequired: string := "CVV is required"
  const InvalidEmail: string := "Invalid email format"

  /** The "... is required" message of each field. */
  function RequiredMessage(f: Field): string
  {
    match f
    case FirstName => FirstNameRequired
    case LastName => LastNameRequired
    case Email => EmailRequired
    case Address => AddressRequired
    case City => CityRequired
    case PostalCode => PostalCodeRequired
    case CardNumber => CardNumberRequired
    case ExpiryDate => ExpiryDateRequired
    case Cvv => CvvRequired
  }

  /**
   * The message a validation leaves on field `f`: for the email, "Invalid
   * email format" whenever it has no '@' (the empty one included); for any
   * other field, its "... is required" message exactly when it is empty.
   */
  function FieldError(d: FormData, f: Field): (e: Option<string>)
    ensures f == Email ==> (e.Some? <==> '@' !in d.email)
    ensures f != Email ==> (e.Some? <==> Blank(d.Get(f)))
    ensures e.Some? ==> !Blank(e.value)
  {
    if f == Email then
      (if '@' in d.email then None else Some(InvalidEmail))
    else
      (if Blank(d.Get(f)) then Some(RequiredMessage(f)) else None)
  }

  /** `!value` for a string: it is empty. */
  predicate Blank(value: string)
  {
    |value| == 0
  }

  /** `message` when `value` is empty, no message otherwise. */
  function Required(value: string, message: string): Option<string>
  {
    if Blank(value) then Some(message) else None
  }

  /**
   * The error record a validation of `d` builds, one message per failed
   * test: on every field, the message `FieldError` gives.
   */
  function ValidationErrors(d: FormData): (errors: Errors)
    ensures forall f :: errors.Get(f) == FieldError(d, f)
  {
    Fields(
      Required(d.firstName, FirstNameRequired),
      Required(d.lastName, LastNameRequired),
      if '@' in d.email then None else Some(InvalidEmail),
      Required(d.address, AddressRequired),
      Required(d.city, CityRequired),
      Required(d.postalCode, PostalCodeRequired),
      Required(d.cardNumber, CardNumberRequired),
      Required(d.expiryDate, ExpiryDateRequired),
      Required(d.cvv, CvvRequired))
  }

  /** Every message in the record is non-empty, so every recorded message is shown. */
  predicate Shown(errors: Errors)
  {
    forall f :: errors.Get(f).Some? ==> !Blank(errors.Get(f).value)
  }

  lemma ValidationErrorsShown(d: FormData)
    ensures Shown(ValidationErrors(d))
  {
  }

  /** The form passes validation exactly when all nine fields are filled and the email holds an '@'. */
  lemma ValidIff(d: FormData)
    ensures ValidationErrors(d) == NoErrors <==>
      && d.firstName != "" && d.lastName != "" && d.email != "" && d.address != ""
      && d.city != "" && d.postalCode != "" && d.cardNumber != "" && d.expiryDate != ""
      && d.cvv != "" && '@' in d.email
  {
  }

  /**
   * An empty email ends with "Invalid email format": the second email test
   * overwrites EmailRequired.
   */
  lemma EmptyEmailMessage(d: FormData)
    requires d.email == ""
    ensures ValidationErrors(d).email == Some(InvalidEmail)
  {
  }

  /** `includes('@')` on a string is membership of the character '@'. */
  lemma IncludesAt(s: string)
    ensures Includes(s, "@") <==> '@' in s
  {
    IncludesSpec(s, "@");
    if '@' in s {
      var i :| 0 <= i < |s| && s[i] == '@';
      assert OccursAt(s, "@", i);
    }
    if Includes(s, "@") {
      var i :| OccursAt(s, "@", i);
      assert s[i] == s[i..i + 1][0];
    }
  }

  /** The state of the form component. */
  class CheckoutForm {
    var formData: FormData
    var errors: Errors

    ghost predicate Valid()
      reads this
    {
      Shown(errors)
    }

    constructor ()
      ensures formData == EmptyForm && errors == NoErrors && Valid()
    {
      formData := EmptyForm;
      errors := NoErrors;
    }

    /**
     * `validateForm`: one test per field on a fresh record; the email's
     * second test overwrites the first. The record built replaces the old one.
     */
    method ValidateForm() returns (valid: bool)
      modifies this
      ensures formData == old(formData)
      ensures errors == ValidationErrors(formData) && Valid()
      ensures valid <==> errors == NoErrors
    {
      var d := formData;
      var newErrors := NoErrors;
      if Blank(d.firstName) { newErrors := newErrors.(firstName := Some(FirstNameRequired)); }
      if Blank(d.lastName) { newErrors := newErrors.(lastName := Some(LastNameRequired)); }
      if Blank(d.email) { newErrors := newErrors.(email := Some(EmailRequired)); }
      IncludesAt(d.email);
      if !Includes(d.email, "@") { newErrors := newErrors.(email := Some(InvalidEmail)); }
      assert newErrors == Fields(
        Required(d.firstName, FirstNameRequired),
        Required(d.lastName, LastNameRequired),
        if '@' in d.email then None else Some(InvalidEmail),
        None, None, None, None, None, None);
      if Blank(d.address) { newErrors := newErrors.(address := Some(AddressRequired)); }
      if Blank(d.city) { newErrors := newErrors.(city := Some(CityRequired)); }
      if Blank(d.postalCode) { newErrors := newErrors.(postalCode := Some(PostalCodeRequired)); }
      assert newErrors == Fields(
        Required(d.firstName, FirstNameRequired),
        Required(d.lastName, LastNameRequired),
        if '@' in d.email then None else Some(InvalidEmail),
        Required(d.address, AddressRequired),
        Required(d.city, CityRequired),
        Required(d.postalCode, PostalCodeRequired),
        None, None, None);
      if Blank(d.cardNumber) { newErrors := newErrors.(cardNumber := Some(CardNumberRequired)); }
      if Blank(d.expiryDate) { newErrors := newErrors.(expiryDate := Some(ExpiryDateRequired)); }
      assert newErrors == Fields(
        Required(d.firstName, FirstNameRequired),
        Required(d.lastName, LastNameRequired),
        if '@' in d.email then None else Some(InvalidEmail),
        Required(d.address, AddressRequired),
        Required(d.city, CityRequired),
        Required(d.postalCode, PostalCodeRequired),
        Required(d.cardNumber, CardNumberRequired),
        Required(d.expiryDate, ExpiryDateRequired),
        None);
      if Blank(d.cvv) { newErrors := newErrors.(cvv := Some(CvvRequired)); }
      assert newErrors.cvv == Required(d.cvv, CvvRequired);
      assert newErrors == ValidationErrors(d);
      errors := newErrors;
      valid := newErrors == NoErrors;
    }

    /**
     * `handleChange`: the named field takes the new value, and its message,
     * if it has one, is cleared; no other field or message changes.
     */
    method HandleChange(name: Field, value: string)
      modifies this
      ensures formData == old(formData).With(name, value)
      ensures old(errors).Get(name).Some? && old(errors).Get(name).value != "" ==>
        errors == old(errors).With(name, None)
      ensures !(old(errors).Get(name).Some? && old(errors).Get(name).value != "") ==>
        errors == old(errors)
      ensures old(Valid()) ==> Valid()
    {
      formData := formData.With(name, value);
      var current := errors.Get(name);
      if current.Some? && current.value != "" {
        errors := errors.With(name, None);
      }
    }

    /**
     * `handleSubmit`: an invalid form returns before the order is placed;
     * a valid one clears the cart and navigates to the thank-you page.
     */
    method HandleSubmit(cart: Cart) returns (navigated: bool)
      requires cart.Valid()
      modifies this, cart
      ensures formData == old(formData) && errors == ValidationErrors(formData)
      ensures navigated <==> ValidationErrors(old(formData)) == NoErrors
      ensures !navigated ==> cart.items == old(cart.items) && cart.total == old(cart.total)
      ensures navigated ==> cart.items == [] && cart.total == 0
      ensures cart.Valid()
    {
      var valid := ValidateForm();
      if !valid {
        return false;
      }
      cart.ClearCart();
      navigated := true;
    }
  }
}

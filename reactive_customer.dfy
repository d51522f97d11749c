/** The customer sign-up component of the ReactiveForms application: the form's
    state, the message and phone-rule updates, and the growable list of addresses. */
module ReactiveCustomer {
  import opened Forms
  import opened CustomerRules

  /** The value of one address sub-form. */
  datatype Address = Address(
    addressType: string,
    street1: string,
    street2: string,
    city: string,
    state: string,
    zip: string)

  /** `buildAddress()`: a home address with every other field blank. */
  function BuildAddress(): (a: Address)
    ensures a.addressType == "home"
    ensures a.street1 == "" && a.street2 == "" && a.city == ""
    ensures a.state == "" && a.zip == ""
  {
    Address("home", "", "", "", "", "")
  }

  class CustomerComponent {
    var firstName: Control<string>
    var lastName: Control<string>
    var emailGroup: EmailGroup
    var phone: Control<string>
    var notification: Control<string>
    var rating: Control<RatingValue>
    var sendCatalog: Control<bool>
    var addresses: seq<Address>
    var emailMessage: string

    /** The component once `ngOnInit` has built the form model. */
    constructor ()
      ensures firstName == NewControl("", [Required, MinLength(3)])
      ensures lastName == NewControl("", [Required, MaxLength(50)])
      ensures emailGroup == EmailGroup(NewControl("", [Required, Email]), NewControl("", [Required]))
      ensures phone == NewControl("", [])
      ensures notification == NewControl("email", [])
      ensures rating == NewControl(Null, [NumberRange(1, 5)])
      ensures sendCatalog == NewControl(true, [])
      ensures addresses == [BuildAddress()]
      ensures emailMessage == ""
    {
      firstName := NewControl("", [Required, MinLength(3)]);
      lastName := NewControl("", [Required, MaxLength(50)]);
      emailGroup := EmailGroup(NewControl("", [Required, Email]), NewControl("", [Required]));
      phone := NewControl("", []);
      notification := NewControl("email", []);
      rating := NewControl(Null, [NumberRange(1, 5)]);
      sendCatalog := NewControl(true, []);
      addresses := [BuildAddress()];
      emailMessage := "";
    }

    /** `addAddress()`: one more default address at the end; the others stay as they were. */
    method AddAddress()
      modifies this`addresses
      ensures |addresses| == |old(addresses)| + 1
      ensures addresses[..|old(addresses)|] == old(addresses)
      ensures addresses[|addresses| - 1] == BuildAddress()
    {
      addresses := addresses + [BuildAddress()];
    }

    /** `setMessage(c)`: recompute the displayed email message from `c`. */
    method SetMessage<V>(c: Control<V>)
      modifies this`emailMessage
      ensures emailMessage == EmailMessage(c)
    {
      emailMessage := "";
      if (c.touched || c.Dirty()) && c.errors != [] {
        emailMessage := FormatErrors(c.errors);
      }
    }

    /** `setNotification(notifyVia)`: make the phone required for "text", clear its
        validators otherwise, and revalidate it; no other control changes.
        `requiredErrors` stands for the library `required` validator's verdict on
        the phone's value. */
    method SetNotification(notifyVia: string, requiredErrors: ErrorKeys)
      modifies this`phone
      ensures phone == WithNotificationRule(old(phone), notifyVia, requiredErrors)
      ensures phone.validators == (if notifyVia == "text" then [Required] else [])
    {
      if notifyVia == "text" {
        phone := phone.(validators := [Required]);
      } else {
        phone := phone.(validators := []);
      }
      phone := phone.(errors := if phone.validators == [] then [] else requiredErrors);
    }
  }
}

/** The customer sign-up component of the Demo application: the same form as the
    ReactiveForms one without addresses, with its own rating range validator. */
module DemoCustomer {
  import opened Forms
  import opened CustomerRules

  /** `ratingRange(min, max)`: a validator for the optional rating. An empty field is
      valid; a number passes exactly when it lies in [min, max]; text that is not a
      number fails. */
  function RatingRange(min: int, max: int): (validate: RatingValue -> Option<ErrorKeys>)
    ensures validate(Null) == None
    ensures validate(NonNumeric) == Some([RangeKey])
    ensures forall v: int :: validate(Num(v)) == if min <= v <= max then None else Some([RangeKey])
  {
    (c: RatingValue) =>
      if c != Null && (c.NonNumeric? || c.n < min || c.n > max) then Some([RangeKey]) else None
  }

  /** Whether a validator on the rating control rejects the value: a
      `RatingRangeRule(min, max)` runs `ratingRange(min, max)`. */
  predicate RuleRejects(rule: Validator, value: RatingValue) {
    rule.RatingRangeRule? && RatingRange(rule.min, rule.max)(value) != None
  }

  /** The errors the rating control's validators report for a value, merged as the
      framework merges error objects: `{range: true}` once if any rule rejects it. */
  function RatingErrors(rules: seq<Validator>, value: RatingValue): (r: Option<ErrorKeys>)
    ensures r == None || r == Some([RangeKey])
    ensures r != None <==> exists i :: 0 <= i < |rules| && RuleRejects(rules[i], value)
    decreases |rules|
  {
    if rules == [] then None
    else if RuleRejects(rules[0], value) then Some([RangeKey])
    else
      var rest := RatingErrors(rules[1..], value);
      assert forall i :: 1 <= i < |rules| ==> rules[i] == rules[1..][i - 1];
      rest
  }

  /** A control carrying the single rule `RatingRangeRule(min, max)` reports exactly
      what `ratingRange(min, max)` returns. */
  lemma {:induction false} SingleRatingRule(min: int, max: int, value: RatingValue)
    ensures RatingErrors([RatingRangeRule(min, max)], value) == RatingRange(min, max)(value)
  {
    assert RuleRejects([RatingRangeRule(min, max)][0], value) <==> RatingRange(min, max)(value) != None;
  }

  /** The rating field's validator, `ratingRange(1, 5)`, accepts exactly the numbers
      1 through 5; in particular 0 is rejected. */
  lemma RatingOneToFive(v: int)
    ensures RatingErrors([RatingRangeRule(1, 5)], Num(v)) == None <==> 1 <= v <= 5
    ensures RatingErrors([RatingRangeRule(1, 5)], Num(0)) == Some([RangeKey])
  {
    SingleRatingRule(1, 5, Num(v));
    SingleRatingRule(1, 5, Num(0));
  }

  class CustomerComponent {
    var firstName: Control<string>
    var lastName: Control<string>
    var emailGroup: EmailGroup
    var phone: Control<string>
    var notification: Control<string>
    var rating: Control<RatingValue>
    var sendCatalog: Control<bool>
    var emailMessage: string

    /** The component once `ngOnInit` has built the form model. */
    constructor ()
      ensures firstName == NewControl("", [Required, MinLength(3)])
      ensures lastName == NewControl("", [Required, MaxLength(50)])
      ensures emailGroup == EmailGroup(NewControl("", [Required, Email]), NewControl("", [Required]))
      ensures phone == NewControl("", [])
      ensures notification == NewControl("email", [])
      ensures rating == NewControl(Null, [RatingRangeRule(1, 5)])
      ensures forall v :: RatingErrors(rating.validators, v) == RatingRange(1, 5)(v)
      ensures sendCatalog == NewControl(true, [])
      ensures emailMessage == ""
    {
      firstName := NewControl("", [Required, MinLength(3)]);
      lastName := NewControl("", [Required, MaxLength(50)]);
      emailGroup := EmailGroup(NewControl("", [Required, Email]), NewControl("", [Required]));
      phone := NewControl("", []);
      notification := NewControl("email", []);
      rating := NewControl(Null, [RatingRangeRule(1, 5)]);
      forall v { SingleRatingRule(1, 5, v); }
      sendCatalog := NewControl(true, []);
      emailMessage := "";
    }

    /** `setMessage(c)`: recompute the displayed email message from `c`. */
    method SetMessage<V>(c: Control<V>)
      modifies this`emailMessage
      ensures emailMessage == EmailMessage(c)
    {
      emailMessage := "";
      if (c.touched || c.Dirty()) && c.errors != [] {
        emailMessage := FormatErrors(c.errors);
      }
    }

    /** `setNotification(notifyVia)`: make the phone required for "text", clear its
        validators otherwise, and revalidate it; no other control changes.
        `requiredErrors` stands for the library `required` validator's verdict on
        the phone's value. */
    method SetNotification(notifyVia: string, requiredErrors: ErrorKeys)
      modifies this`phone
      ensures phone == WithNotificationRule(old(phone), notifyVia, requiredErrors)
      ensures phone.validators == (if notifyVia == "text" then [Required] else [])
    {
      if notifyVia == "text" {
        phone := phone.(validators := [Required]);
      } else {
        phone := phone.(validators := []);
      }
      phone := phone.(errors := if phone.validators == [] then [] else requiredErrors);
    }
  }
}

# Customer sign-up form validation, modelled in Dafny

Two small Angular applications, `ReactiveForms` and `Demo`, each have a customer sign-up
component with the same validation rules:

- a cross-field email matcher on the email/confirm-email group;
- a table of email error messages, joined into one display string;
- a phone field that becomes required when the notification preference is "text".

`ReactiveForms` adds a growable list of address sub-forms. `Demo` adds its own rating range
validator.

The model is split into five modules:

- `Text` (`text.dfy`): JavaScript's `Array.prototype.join`, with lemmas saying how joined
  strings are put together.
- `Forms` (`forms.dfy`): the framework state the rules read, reduced to values. `Control<V>`
  holds a value, `pristine`, `touched` (with `Dirty()` being the framework's `!pristine`), a
  list of validator identifiers and an ordered list of error keys. The rating value is
  `Null | Num(int) | NonNumeric`.
- `CustomerRules` (`customer_rules.dfy`): the logic that both components contain word for
  word: `emailMatcher`, the `validationMessages` table, the message formatter, and the
  phone rule that `setNotification` applies. The Demo component's `emailMatcher`
  (`Demo/src/app/customers/customer.component.ts:12-22`) is identical to the ReactiveForms
  one, and `CustomerRules.EmailMatcher` models both.
- `ReactiveCustomer` (`reactive_customer.dfy`): the ReactiveForms component as a class. Its
  fields are the form's controls, the `addresses` list and `emailMessage`. `setMessage`,
  `setNotification` and `addAddress` are methods that change only the field they assign.
- `DemoCustomer` (`demo_customer.dfy`): `ratingRange` as a function that returns a validator
  closure, and the Demo component as a class with the same methods and no addresses.

An error key with no entry in `validationMessages` looks up `undefined`. `join` writes that
as an empty segment, so its separators remain. The model keeps the empty segment
(`CustomerRules.FormatUnmappedKey`).

## Model

| member | source | states |
|---|---|---|
| `Forms.NewControl` | ReactiveForms/src/app/customers/customer.component.ts:49-63 | a control as the form builder creates it carries the declared value and validators and is pristine, untouched and not dirty |
| `Text.Join` | ReactiveForms/src/app/customers/customer.component.ts:112 | `Array.prototype.join`: no contract of its own; `Text.JoinConcat` and `Text.JoinEmptyIff` state its properties |
| `Text.JoinConcat` | ReactiveForms/src/app/customers/customer.component.ts:110-112 | joining two non-empty lists equals joining each, with one separator between; every part keeps its position |
| `Text.JoinEmptyIff` | ReactiveForms/src/app/customers/customer.component.ts:110-112 | with a non-empty separator, the join is empty exactly when there are no parts, or one empty part |
| `CustomerRules.EmailMatcher` | ReactiveForms/src/app/customers/customer.component.ts:13-23 | result is null or exactly `{match: true}`; null whenever either control is pristine; `{match: true}` exactly when both are non-pristine and the values differ (so null when they are equal); Demo's identical copy is modelled too |
| `CustomerRules.MessageFor` | ReactiveForms/src/app/customers/customer.component.ts:34-37 | a key gets a non-empty message exactly when the table has it, and then it gets the table's text; an unknown key gives the empty string that `join` writes for `undefined` |
| `CustomerRules.Messages` | ReactiveForms/src/app/customers/customer.component.ts:111 | the mapped list has one message per key, each at its key's position |
| `CustomerRules.FormatErrors` | ReactiveForms/src/app/customers/customer.component.ts:110-112 | the message of a list of error keys: no contract of its own; `FormatErrorsSingle`, `FormatErrorsConcat`, `FormatErrorsCons`, `FormatErrorsEmptyIff` and `FormatErrorsInjective` state its properties |
| `CustomerRules.FormatErrorsSingle` | ReactiveForms/src/app/customers/customer.component.ts:110-112 | a single key gives exactly its message |
| `CustomerRules.FormatErrorsConcat` | ReactiveForms/src/app/customers/customer.component.ts:110-112 | the messages of two key runs are joined by one space, in key order |
| `CustomerRules.FormatErrorsCons` | ReactiveForms/src/app/customers/customer.component.ts:110-112 | the message is the first key's message, then, if more keys follow, a space and the message of the rest |
| `CustomerRules.FormatBuiltinErrors` | ReactiveForms/src/app/customers/customer.component.ts:34-37 | `{required}` gives "Please enter your email address"; `{email}` gives "Please enter a valid email address"; `{required, email}` gives both, space-joined, in that order |
| `CustomerRules.FormatUnmappedKey` | ReactiveForms/src/app/customers/customer.component.ts:110-112 | an unmapped key adds an empty segment: alone it gives "", after `required` it leaves a trailing space |
| `CustomerRules.FormatErrorsEmptyIff` | ReactiveForms/src/app/customers/customer.component.ts:110-112 | the formatted message is empty exactly when there are no keys, or one key with no message |
| `CustomerRules.KnownMessagesDiffer` | ReactiveForms/src/app/customers/customer.component.ts:34-37 | the two table messages differ within their common prefix, so no continuation makes one message start like the other |
| `CustomerRules.SameHeadSameRest` | ReactiveForms/src/app/customers/customer.component.ts:110-112 | equal messages of two non-empty lists of known keys start with the same key, and continue with equal messages of the remaining keys |
| `CustomerRules.FormatErrorsInjective` | ReactiveForms/src/app/customers/customer.component.ts:34-37 | two lists of known keys with the same message are the same list, so the message tells which errors there are and in what order |
| `CustomerRules.EmailMessage` | ReactiveForms/src/app/customers/customer.component.ts:107-114 | the value `setMessage` assigns: "" while the control is untouched and pristine; once it is touched or dirty, exactly the formatted message of its error keys (which is "" for no keys); `EmailMessageEmptyIff` and `EmailMessageShown` state more |
| `CustomerRules.EmailMessageEmptyIff` | ReactiveForms/src/app/customers/customer.component.ts:107-114 | the message is "" exactly when the control is untouched and pristine, has no errors, or has one error with no message |
| `CustomerRules.EmailMessageShown` | ReactiveForms/src/app/customers/customer.component.ts:107-114 | once the control is touched or dirty, `{required}`, `{email}` and `{required, email}` show their messages, space-joined in key order |
| `CustomerRules.NotificationValidators` | ReactiveForms/src/app/customers/customer.component.ts:118-122 | the phone is required exactly when the preference is "text": the list is `[required]` for "text" and empty otherwise |
| `CustomerRules.WithNotificationRule` | ReactiveForms/src/app/customers/customer.component.ts:116-124 | the phone's validators become the preference's list; with none, revalidation leaves no errors; with `required`, it leaves the library validator's verdict; value, pristine and touched are unchanged |
| `CustomerRules.NotificationIdempotent` | Demo/src/app/customers/customer.component.ts:104-112 | applying the same preference twice leaves the phone as applying it once |
| `CustomerRules.NotificationLatestWins` | ReactiveForms/src/app/customers/customer.component.ts:116-124 | two preferences in a row leave the phone as the second one alone would; "text" then "email" clears the required rule again |
| `ReactiveCustomer.BuildAddress` | ReactiveForms/src/app/customers/customer.component.ts:86-95 | a new address has type "home" and every other field blank |
| `ReactiveCustomer.CustomerComponent.constructor` | ReactiveForms/src/app/customers/customer.component.ts:47-65 | every control starts pristine and untouched with its declared value and validators; the address list holds exactly one default address; no message is shown |
| `ReactiveCustomer.CustomerComponent.AddAddress` | ReactiveForms/src/app/customers/customer.component.ts:82-84 | the list grows by one and ends with a default address; earlier entries are unchanged; nothing else changes |
| `ReactiveCustomer.CustomerComponent.SetMessage` | ReactiveForms/src/app/customers/customer.component.ts:107-114 | `emailMessage` becomes the gated, formatted message of the given control; nothing else changes |
| `ReactiveCustomer.CustomerComponent.SetNotification` | ReactiveForms/src/app/customers/customer.component.ts:116-124 | the phone's validators are exactly `[required]` after "text" and empty after any other value; the phone is revalidated; no other control changes |
| `DemoCustomer.RatingRange` | Demo/src/app/customers/customer.component.ts:24-34 | the returned validator accepts null, because the field is optional; it accepts a number v exactly when min <= v <= max and otherwise gives `{range: true}`; it gives `{range: true}` for any non-numeric value |
| `DemoCustomer.RatingErrors` | Demo/src/app/customers/customer.component.ts:66 | the rating control's errors for a value are null or exactly `{range: true}`, and `{range: true}` exactly when one of its `ratingRange` rules rejects the value |
| `DemoCustomer.SingleRatingRule` | Demo/src/app/customers/customer.component.ts:66 | a control carrying the single rule `ratingRange(min, max)` reports exactly what that validator returns |
| `DemoCustomer.RatingOneToFive` | Demo/src/app/customers/customer.component.ts:66 | a rating control carrying `ratingRange(1, 5)` accepts exactly the numbers 1 to 5; for example, 0 fails |
| `DemoCustomer.CustomerComponent.constructor` | Demo/src/app/customers/customer.component.ts:52-68 | every control starts pristine and untouched with its declared value and validators; the rating field carries the rule `ratingRange(1, 5)`, and its errors for every value are exactly what `RatingRange(1, 5)` returns; no message is shown |
| `DemoCustomer.CustomerComponent.SetMessage` | Demo/src/app/customers/customer.component.ts:95-102 | `emailMessage` becomes the gated, formatted message of the given control; nothing else changes |
| `DemoCustomer.CustomerComponent.SetNotification` | Demo/src/app/customers/customer.component.ts:104-112 | the phone's validators are exactly `[required]` after "text" and empty after any other value; the phone is revalidated; no other control changes |

## Left out

- The `valueChanges` subscriptions are not modelled. These are the notification watcher and the email watcher with its 1000 ms `debounceTime`. They are event-stream plumbing and timing. `SetNotification` and `SetMessage` model what the subscriptions call.
- The framework's built-in validators (`required`, `email`, `minLength`, `maxLength`) are library code. The model keeps only their identities and treats the error keys they report as given.
- `updateValueAndValidity` is library code. `SetNotification` takes the `required` validator's verdict on the phone's value as the parameter `requiredErrors`. With no validators, no errors remain.
- `NumberValidators.range`, used on the ReactiveForms rating field, comes from a file that is not part of this model. It is kept as the opaque validator `NumberRange(1, 5)`, and nothing is assumed about what it accepts.
- ReactiveCustomer.CustomerComponent.constructor: every control starts with no error keys. The library validators' first run is not modelled, although it would, for example, report `required` on the empty first name.
- DemoCustomer.CustomerComponent.constructor: every control starts with no error keys, for the same reason.
- The component's `emailMessage` is `undefined` until the first `setMessage`. The model starts it at "", which the template displays the same way.
- The group error from `EmailMatcher` is not stored in the class. The group's status is computed by the framework; the matcher's result is the model of it.
- Address sub-forms are modelled as plain values. Their own control state (pristine, touched, validators) is not modelled, because the code never reads it. The `addresses` getter is only an accessor and is represented by the field itself.
- `save()` only logs to the console. `populateTestData()` is a framework `setValue` call. Neither is modelled.
- The `Customer` data-model class is not part of this model. `app.component.ts` holds only navigation markup and a title.
- DemoCustomer.RatingErrors: only the component's own `ratingRange` rules are run; any library validator on the same control would add no errors here. The Demo rating control carries no library validator.
- JavaScript's `isNaN` coercion and floating-point comparison are not modelled. A rating is null, an integer, or a non-numeric value.

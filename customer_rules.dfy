/** The validation logic that both customer components contain word for word:
    the cross-field email matcher, the error-message table and formatter, and the
    rule that makes the phone required when notifications go by text. */
module CustomerRules {
  import opened Text
  import opened Forms

  /** The nested group holding the two email controls. */
  datatype EmailGroup = EmailGroup(email: Control<string>, confirmEmail: Control<string>)

  /** Group validator: a mismatch is reported only once the user has changed both
      fields, and then only when their values differ. */
  function EmailMatcher(g: EmailGroup): (r: Option<ErrorKeys>)
    ensures r == None || r == Some([MatchKey])
    ensures g.email.pristine || g.confirmEmail.pristine ==> r == None
    ensures r == Some([MatchKey]) <==>
              !g.email.pristine && !g.confirmEmail.pristine && g.email.value != g.confirmEmail.value
  {
    if g.email.pristine || g.confirmEmail.pristine then None
    else if g.email.value == g.confirmEmail.value then None
    else Some([MatchKey])
  }

  const RequiredText := "Please enter your email address"
  const InvalidEmailText := "Please enter a valid email address"

  /** The component's `validationMessages` table. */
  const ValidationMessages: map<string, string> :=
    map[RequiredKey := RequiredText, EmailKey := InvalidEmailText]

  /** `validationMessages[key]` as `join` renders it: a key missing from the table
      looks up `undefined`, which `join` writes as the empty string. */
  function MessageFor(key: string): (m: string)
    ensures m != "" <==> key in ValidationMessages
    ensures key in ValidationMessages ==> m == ValidationMessages[key]
  {
    if key in ValidationMessages then ValidationMessages[key] else ""
  }

  /** The message of each key, in key order. */
  function Messages(keys: ErrorKeys): (ms: seq<string>)
    ensures |ms| == |keys|
    ensures forall i :: 0 <= i < |keys| ==> ms[i] == MessageFor(keys[i])
  {
    seq(|keys|, i requires 0 <= i < |keys| => MessageFor(keys[i]))
  }

  /** `Object.keys(errors).map(key => validationMessages[key]).join(' ')`. */
  function FormatErrors(keys: ErrorKeys): string
  {
    Join(Messages(keys), " ")
  }

  /** One key gives exactly its message. */
  lemma FormatErrorsSingle(key: string)
    ensures FormatErrors([key]) == MessageFor(key)
  {
  }

  /** The messages of two runs of keys are joined by a single space, in key order. */
  lemma {:induction false} FormatErrorsConcat(k1: ErrorKeys, k2: ErrorKeys)
    requires k1 != [] && k2 != []
    ensures FormatErrors(k1 + k2) == FormatErrors(k1) + " " + FormatErrors(k2)
  {
    assert Messages(k1 + k2) == Messages(k1) + Messages(k2);
    JoinConcat(Messages(k1), Messages(k2), " ");
  }

  /** The message of a key list is its first key's message followed, if more keys
      follow, by a space and the message of the rest. */
  lemma {:induction false} FormatErrorsCons(keys: ErrorKeys)
    requires keys != []
    ensures FormatErrors(keys) ==
              MessageFor(keys[0]) + (if |keys| == 1 then "" else " " + FormatErrors(keys[1..]))
  {
    if |keys| > 1 {
      assert keys == [keys[0]] + keys[1..];
      FormatErrorsConcat([keys[0]], keys[1..]);
      FormatErrorsSingle(keys[0]);
    } else {
      FormatErrorsSingle(keys[0]);
    }
  }

  /** The two error keys the email control's validators can report give the
      documented messages, alone or together. */
  lemma FormatBuiltinErrors()
    ensures FormatErrors([RequiredKey]) == RequiredText
    ensures FormatErrors([EmailKey]) == InvalidEmailText
    ensures FormatErrors([RequiredKey, EmailKey]) == RequiredText + " " + InvalidEmailText
  {
    assert [RequiredKey, EmailKey] == [RequiredKey] + [EmailKey];
    FormatErrorsConcat([RequiredKey], [EmailKey]);
    FormatErrorsSingle(RequiredKey);
    FormatErrorsSingle(EmailKey);
  }

  /** A key without a message still takes its place between separators. */
  lemma FormatUnmappedKey(key: string)
    requires key !in ValidationMessages
    ensures FormatErrors([RequiredKey, key]) == RequiredText + " "
    ensures FormatErrors([key]) == ""
  {
    assert [RequiredKey, key] == [RequiredKey] + [key];
    FormatErrorsConcat([RequiredKey], [key]);
    FormatErrorsSingle(RequiredKey);
    FormatErrorsSingle(key);
  }

  /** The formatted message is empty exactly when there are no keys, or a single key
      that has no message. */
  lemma FormatErrorsEmptyIff(keys: ErrorKeys)
    ensures FormatErrors(keys) == "" <==>
              keys == [] || (|keys| == 1 && keys[0] !in ValidationMessages)
  {
    JoinEmptyIff(Messages(keys), " ");
  }

  /** The messages of two different known keys differ within their common prefix, so no
      continuation can make one message text start like the other. */
  lemma KnownMessagesDiffer(a: string, b: string, s: string, t: string)
    requires a in ValidationMessages && b in ValidationMessages && a != b
    ensures MessageFor(a) + s != MessageFor(b) + t
  {
    assert (MessageFor(a) + s)[13] == MessageFor(a)[13];
    assert (MessageFor(b) + t)[13] == MessageFor(b)[13];
  }

  /** A common prefix can be cancelled. */
  lemma CancelPrefix(p: string, s: string, t: string)
    requires p + s == p + t
    ensures s == t
  {
    assert s == (p + s)[|p|..];
    assert t == (p + t)[|p|..];
  }

  /** Every key has a message. */
  predicate AllKnown(keys: ErrorKeys) {
    forall i :: 0 <= i < |keys| ==> keys[i] in ValidationMessages
  }

  /** Equal messages of non-empty lists of known keys start with the same key and
      continue with equal messages of the remaining keys. */
  lemma SameHeadSameRest(k1: ErrorKeys, k2: ErrorKeys)
    requires k1 != [] && k2 != []
    requires k1[0] in ValidationMessages && k2[0] in ValidationMessages
    requires FormatErrors(k1) == FormatErrors(k2)
    ensures k1[0] == k2[0]
    ensures |k1| == 1 <==> |k2| == 1
    ensures |k1| > 1 ==> FormatErrors(k1[1..]) == FormatErrors(k2[1..])
  {
    FormatErrorsCons(k1);
    FormatErrorsCons(k2);
    var t1 := if |k1| == 1 then "" else " " + FormatErrors(k1[1..]);
    var t2 := if |k2| == 1 then "" else " " + FormatErrors(k2[1..]);
    if k1[0] != k2[0] {
      KnownMessagesDiffer(k1[0], k2[0], t1, t2);
    }
    CancelPrefix(MessageFor(k1[0]), t1, t2);
    if |k1| > 1 && |k2| > 1 {
      CancelPrefix(" ", FormatErrors(k1[1..]), FormatErrors(k2[1..]));
    }
  }

  /** Distinct lists of known keys give distinct messages: the message tells which
      errors the control has, and in which order. */
  lemma {:induction false} FormatErrorsInjective(k1: ErrorKeys, k2: ErrorKeys)
    requires AllKnown(k1) && AllKnown(k2)
    requires FormatErrors(k1) == FormatErrors(k2)
    ensures k1 == k2
    decreases |k1|
  {
    if k1 == [] || k2 == [] {
      FormatErrorsEmptyIff(k1);
      FormatErrorsEmptyIff(k2);
    } else {
      assert k1[0] in ValidationMessages && k2[0] in ValidationMessages;
      SameHeadSameRest(k1, k2);
      if |k1| > 1 {
        assert AllKnown(k1[1..]) by {
          forall i | 0 <= i < |k1[1..]| ensures k1[1..][i] in ValidationMessages {
            assert k1[1..][i] == k1[i + 1];
          }
        }
        assert AllKnown(k2[1..]) by {
          forall i | 0 <= i < |k2[1..]| ensures k2[1..][i] in ValidationMessages {
            assert k2[1..][i] == k2[i + 1];
          }
        }
        FormatErrorsInjective(k1[1..], k2[1..]);
        assert k1 == [k1[0]] + k1[1..];
        assert k2 == [k2[0]] + k2[1..];
      }
    }
  }

  /** The component's `emailMessage` after `setMessage(c)`: empty until the user has
      visited or changed the control, or while it has no errors; otherwise the
      formatted messages of its error keys. */
  function EmailMessage<V>(c: Control<V>): (r: string)
    ensures !c.touched && c.pristine ==> r == ""
    ensures c.touched || c.Dirty() ==> r == FormatErrors(c.errors)
  {
    if (c.touched || c.Dirty()) && c.errors != [] then FormatErrors(c.errors) else ""
  }

  /** The message is blank exactly when the control is untouched and pristine, has no
      errors, or has a single error with no message. */
  lemma EmailMessageEmptyIff<V>(c: Control<V>)
    ensures EmailMessage(c) == "" <==>
              (!c.touched && c.pristine) || c.errors == [] ||
              (|c.errors| == 1 && c.errors[0] !in ValidationMessages)
  {
    FormatErrorsEmptyIff(c.errors);
  }

  /** Once the user has visited or changed the control, its known errors appear as
      their messages, space-separated, in key order. */
  lemma EmailMessageShown<V>(c: Control<V>)
    requires c.touched || c.Dirty()
    ensures c.errors == [RequiredKey] ==> EmailMessage(c) == RequiredText
    ensures c.errors == [EmailKey] ==> EmailMessage(c) == InvalidEmailText
    ensures c.errors == [RequiredKey, EmailKey] ==>
              EmailMessage(c) == RequiredText + " " + InvalidEmailText
  {
    FormatBuiltinErrors();
  }

  /** The phone control's validator list for a notification preference:
      `required` alone for "text", nothing otherwise. */
  function NotificationValidators(notifyVia: string): (vs: seq<Validator>)
    ensures Required in vs <==> notifyVia == "text"
    ensures notifyVia == "text" ==> vs == [Required]
    ensures notifyVia != "text" ==> vs == []
  {
    if notifyVia == "text" then [Required] else []
  }

  /** The phone control after `setNotification(notifyVia)`: its validators replaced
      and the control revalidated. `requiredErrors` is what the library's `required`
      validator reports for the phone's value; with no validators there are no errors.
      Value and interaction state do not change. */
  function WithNotificationRule(phone: Control<string>, notifyVia: string, requiredErrors: ErrorKeys)
    : (p: Control<string>)
    ensures p.value == phone.value && p.pristine == phone.pristine && p.touched == phone.touched
    ensures p.validators == NotificationValidators(notifyVia)
    ensures notifyVia != "text" ==> p.errors == []
    ensures notifyVia == "text" ==> p.errors == requiredErrors
  {
    var vs := NotificationValidators(notifyVia);
    phone.(validators := vs, errors := if vs == [] then [] else requiredErrors)
  }

  /** Applying the same preference twice leaves the phone as applying it once. */
  lemma NotificationIdempotent(phone: Control<string>, notifyVia: string, requiredErrors: ErrorKeys)
    ensures WithNotificationRule(WithNotificationRule(phone, notifyVia, requiredErrors), notifyVia, requiredErrors)
         == WithNotificationRule(phone, notifyVia, requiredErrors)
  {
  }

  /** Only the latest preference matters: switching to "text" and back to another
      preference leaves the phone unconstrained, as if "text" had never been chosen. */
  lemma NotificationLatestWins(phone: Control<string>, first: string, second: string, e1: ErrorKeys, e2: ErrorKeys)
    ensures WithNotificationRule(WithNotificationRule(phone, first, e1), second, e2)
         == WithNotificationRule(phone, second, e2)
  {
  }
}

/**
 * The example sign-in form that instantiates the validation hook: an email
 * field and a password field, each with an ordered rule list, starting from
 * empty values. The email-format regular expression stays a parameter.
 */
module ExampleForm {
  import opened Wrappers
  import opened FormValidation

  /** JavaScript's `!v` on a field value: true for `undefined` and for "". */
  function Falsy(v: Input): bool
  {
    v == None || v == Some("")
  }

  /** The string a regular-expression test sees: `undefined` is coerced to "undefined". */
  function JsString(v: Input): string
  {
    match v
    case None => "undefined"
    case Some(s) => s
  }

  /** Some character of `s` lies in the range `lo`..`hi` (a one-class regex test). */
  function HasCharIn(s: string, lo: char, hi: char): bool
  {
    exists i | 0 <= i < |s| :: lo <= s[i] <= hi
  }

  /** JavaScript's `length`: UTF-16 code units, two for a character outside the Basic Multilingual Plane. */
  function Utf16Length(s: string): (n: nat)
    ensures |s| <= n <= 2 * |s|
    ensures (forall i | 0 <= i < |s| :: s[i] < '\U{10000}') ==> n == |s|
  {
    if s == [] then 0 else (if s[0] >= '\U{10000}' then 2 else 1) + Utf16Length(s[1..])
  }

  /** A password every rule accepts: present, at least 8 UTF-16 units, with an upper-case letter, a lower-case letter and a digit. */
  predicate StrongPassword(v: Input)
  {
    && v.Some?
    && Utf16Length(v.value) >= 8
    && HasCharIn(v.value, 'A', 'Z')
    && HasCharIn(v.value, 'a', 'z')
    && HasCharIn(v.value, '0', '9')
  }

  const EmailRequired := "Email is required"
  const EmailInvalid := "Invalid email format"
  const PasswordRequired := "Password is required"
  const PasswordShort := "Password must be at least 8 characters"
  const PasswordNoUpper := "Password must contain at least one uppercase letter"
  const PasswordNoLower := "Password must contain at least one lowercase letter"
  const PasswordNoDigit := "Password must contain at least one number"

  /** The error the email rules give: required first, then the format. */
  function EmailError(isEmail: string -> bool, v: Input): string
  {
    if Falsy(v) then EmailRequired else if !isEmail(JsString(v)) then EmailInvalid else ""
  }

  /** The error the password rules give: required, then length, then upper-case, lower-case and digit, in that order. */
  function PasswordError(v: Input): string
  {
    if Falsy(v) then PasswordRequired
    else if Utf16Length(v.value) < 8 then PasswordShort
    else if !HasCharIn(v.value, 'A', 'Z') then PasswordNoUpper
    else if !HasCharIn(v.value, 'a', 'z') then PasswordNoLower
    else if !HasCharIn(v.value, '0', '9') then PasswordNoDigit
    else ""
  }

  /** The email rules: required, then well-formed by the (abstract) format test `isEmail`. */
  function EmailRules(isEmail: string -> bool): (rules: seq<Rule>)
    ensures IgnoresValueMap(rules)
    ensures forall v, m :: FirstError(rules, v, m) == EmailError(isEmail, v)
  {
    [ (v: Input, m: Values) => if Falsy(v) then Some(EmailRequired) else None,
      (v: Input, m: Values) => if !isEmail(JsString(v)) then Some(EmailInvalid) else None ]
  }

  /** The password rules: required, length at least 8, an upper-case letter, a lower-case letter, a digit. */
  function PasswordRules(): (rules: seq<Rule>)
    ensures |rules| == 5 && IgnoresValueMap(rules)
  {
    [ (v: Input, m: Values) => if Falsy(v) then Some(PasswordRequired) else None,
      (v: Input, m: Values) => if v.Some? && Utf16Length(v.value) < 8 then Some(PasswordShort) else None,
      (v: Input, m: Values) => if !HasCharIn(JsString(v), 'A', 'Z') then Some(PasswordNoUpper) else None,
      (v: Input, m: Values) => if !HasCharIn(JsString(v), 'a', 'z') then Some(PasswordNoLower) else None,
      (v: Input, m: Values) => if !HasCharIn(JsString(v), '0', '9') then Some(PasswordNoDigit) else None ]
  }

  /** The example form's rule set; no rule reads the value map, so touched fields always show current errors. */
  function ExampleRules(isEmail: string -> bool): (rules: Rules)
    ensures rules.Keys == {"email", "password"}
    ensures ValueOnly(rules)
  {
    map["email" := EmailRules(isEmail), "password" := PasswordRules()]
  }

  const InitialValues: Values := map["email" := "", "password" := ""]

  /** The password rules accept exactly the strong passwords. */
  lemma PasswordAcceptedIffStrong(v: Input, m: Values)
    ensures FirstError(PasswordRules(), v, m) == "" <==> StrongPassword(v)
  {
    var rules := PasswordRules();
    var pass0 := !Falsy(v);
    var pass1 := !(v.Some? && Utf16Length(v.value) < 8);
    var pass2 := HasCharIn(JsString(v), 'A', 'Z');
    var pass3 := HasCharIn(JsString(v), 'a', 'z');
    var pass4 := HasCharIn(JsString(v), '0', '9');
    assert (Verdict(rules[0], v, m) == "") == pass0;
    assert (Verdict(rules[1], v, m) == "") == pass1;
    assert (Verdict(rules[2], v, m) == "") == pass2;
    assert (Verdict(rules[3], v, m) == "") == pass3;
    assert (Verdict(rules[4], v, m) == "") == pass4;
    assert AllPass(rules, v, m) <==> pass0 && pass1 && pass2 && pass3 && pass4;
    assert StrongPassword(v) <==> pass0 && pass1 && pass2 && pass3 && pass4;
  }

  /** What each password rule says about `v`, by position. */
  lemma PasswordVerdicts(v: Input, m: Values)
    ensures Verdict(PasswordRules()[0], v, m) == if Falsy(v) then PasswordRequired else ""
    ensures Verdict(PasswordRules()[1], v, m) == if v.Some? && Utf16Length(v.value) < 8 then PasswordShort else ""
    ensures Verdict(PasswordRules()[2], v, m) == if !HasCharIn(JsString(v), 'A', 'Z') then PasswordNoUpper else ""
    ensures Verdict(PasswordRules()[3], v, m) == if !HasCharIn(JsString(v), 'a', 'z') then PasswordNoLower else ""
    ensures Verdict(PasswordRules()[4], v, m) == if !HasCharIn(JsString(v), '0', '9') then PasswordNoDigit else ""
  {
  }

  /** The password field's error for every input: the first failing check of `PasswordError`'s order, or "". */
  lemma PasswordRulesError(v: Input, m: Values)
    ensures FirstError(PasswordRules(), v, m) == PasswordError(v)
  {
    var rules := PasswordRules();
    PasswordVerdicts(v, m);
    if Falsy(v) {
      FirstFailingRuleWins(rules, v, m, 0);
    } else if Utf16Length(v.value) < 8 {
      FirstFailingRuleWins(rules, v, m, 1);
    } else if !HasCharIn(v.value, 'A', 'Z') {
      FirstFailingRuleWins(rules, v, m, 2);
    } else if !HasCharIn(v.value, 'a', 'z') {
      FirstFailingRuleWins(rules, v, m, 3);
    } else if !HasCharIn(v.value, '0', '9') {
      FirstFailingRuleWins(rules, v, m, 4);
    } else {
      PasswordAcceptedIffStrong(v, m);
    }
  }

  /** "Required" comes first: an empty or missing password never reports the length message. */
  lemma EmptyPasswordIsRequired(v: Input, m: Values)
    requires Falsy(v)
    ensures FirstError(PasswordRules(), v, m) == PasswordRequired
  {
    FirstFailingRuleWins(PasswordRules(), v, m, 0);
  }

  /** "abcdefgh" passes required and length, so the upper-case rule speaks first. */
  lemma LowercaseEightReportsUppercase(m: Values)
    ensures FirstError(PasswordRules(), Some("abcdefgh"), m) == PasswordNoUpper
  {
    var s := "abcdefgh";
    assert !HasCharIn(s, 'A', 'Z') by {
      forall i | 0 <= i < |s| ensures !('A' <= s[i] <= 'Z') {
        assert 'a' <= s[i] <= 'h';
      }
    }
    FirstFailingRuleWins(PasswordRules(), Some(s), m, 2);
  }

  /**
   * Length is counted in UTF-16 units, as JavaScript does: four characters
   * outside the Basic Multilingual Plane make 8 units, so the length rule
   * passes and the upper-case rule speaks.
   */
  lemma AstralPasswordLength(m: Values)
    ensures FirstError(PasswordRules(), Some("\U{1F600}\U{1F600}\U{1F600}\U{1F600}"), m) == PasswordNoUpper
  {
    var s := "\U{1F600}\U{1F600}\U{1F600}\U{1F600}";
    assert Utf16Length(s) == 8 by {
      assert s[1..][1..][1..][1..] == [];
    }
    assert !HasCharIn(s, 'A', 'Z');
    FirstFailingRuleWins(PasswordRules(), Some(s), m, 2);
  }

  /** Submitting the untouched form fails, with "required" on both fields. */
  lemma SubmitInitialForm(isEmail: string -> bool)
    ensures !IsValid(ExampleRules(isEmail), InitialValues)
    ensures Validate(ExampleRules(isEmail), Initial(InitialValues)).errors ==
      map["email" := EmailRequired, "password" := PasswordRequired]
  {
    var rules := ExampleRules(isEmail);
    var errors := FormErrors(rules, InitialValues);
    var expected := map["email" := EmailRequired, "password" := PasswordRequired];
    EmptyFieldRequired(rules, "email", EmailRequired, InitialValues);
    EmptyFieldRequired(rules, "password", PasswordRequired, InitialValues);
    forall f | f in errors ensures f in expected {
      FormErrorsEntry(rules, InitialValues, f);
    }
    assert errors == expected;
  }

  /** Typing "bad" into a fresh email field shows nothing; leaving the field shows the format error. */
  lemma BadEmailShownOnlyAfterBlur(isEmail: string -> bool)
    requires !isEmail("bad")
    ensures var s := Change(ExampleRules(isEmail), Initial(InitialValues), "email", "bad");
      && "email" !in s.errors
      && Blur(ExampleRules(isEmail), s, "email").errors["email"] == EmailInvalid
  {
    var rules := ExampleRules(isEmail);
    var s := Change(rules, Initial(InitialValues), "email", "bad");
    FirstFailingRuleWins(rules["email"], Some("bad"), s.values, 1);
  }

  /** On a touched password field, typing "abcdefgh" shows the upper-case error at once. */
  lemma TouchedPasswordChange(isEmail: string -> bool, s: FormState)
    requires IsTouched(s.touched, "password")
    ensures Change(ExampleRules(isEmail), s, "password", "abcdefgh").errors["password"] == PasswordNoUpper
  {
    LowercaseEightReportsUppercase(s.values);
  }
}

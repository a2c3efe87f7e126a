/**
 * The generic form-validation hook `useFormValidation`: three maps keyed by
 * field name (values, errors, touched), a first-match rule search per field,
 * and the change / blur / whole-form transitions on those maps.
 *
 * Each handler is one atomic transition on the state it captured when it
 * started (the closure semantics of the hook). The pure functions `Change`,
 * `Blur` and `Validate` define the transitions; the class `Form` performs
 * them in place and is proved to agree with them.
 */
module FormValidation {
  import opened Wrappers

  /** The value map: field name to its current text. */
  type Values = map<string, string>

  /** What a rule is handed as the field's value: `None` is `undefined`, read for a field without an entry. */
  type Input = Option<string>

  /** A validation rule: (field value, whole value map) to no complaint or a message. */
  type Rule = (Input, Values) -> Option<string>

  /** Rules per field name, each list in declared (priority) order. */
  type Rules = map<string, seq<Rule>>

  /** Reading `values[name]`. */
  function Lookup(values: Values, name: string): Input
  {
    if name in values then Some(values[name]) else None
  }

  /** A rule's result as the hook reads it: the message, or "" when the result is falsy. */
  function Verdict(rule: Rule, v: Input, values: Values): string
  {
    match rule(v, values)
    case None => ""
    case Some(msg) => msg
  }

  /** No rule of the list complains. */
  ghost predicate AllPass(rules: seq<Rule>, v: Input, values: Values)
  {
    forall i | 0 <= i < |rules| :: Verdict(rules[i], v, values) == ""
  }

  /**
   * The loop of `validateField`: the message of the first rule, in declared
   * order, whose result is truthy; "" when every rule passes.
   */
  function FirstError(rules: seq<Rule>, v: Input, values: Values): (msg: string)
    ensures msg == "" <==> AllPass(rules, v, values)
    ensures msg != "" ==>
      exists k | 0 <= k < |rules| :: msg == Verdict(rules[k], v, values) && AllPass(rules[..k], v, values)
  {
    if rules == [] then ""
    else
      var m := Verdict(rules[0], v, values);
      if m != "" then
        assert AllPass(rules[..0], v, values);
        m
      else
        var rest := FirstError(rules[1..], v, values);
        assert rest != "" ==> exists k | 0 <= k < |rules| :: rest == Verdict(rules[k], v, values) && AllPass(rules[..k], v, values) by {
          if rest != "" {
            var k' :| 0 <= k' < |rules[1..]| && rest == Verdict(rules[1..][k'], v, values) && AllPass(rules[1..][..k'], v, values);
            assert rules[..k' + 1] == [rules[0]] + rules[1..][..k'];
            assert AllPass(rules[..k' + 1], v, values);
          }
        }
        rest
  }

  /** `validateField(name, value)` against the value map `values` the handler captured. */
  function ValidateField(rules: Rules, name: string, v: Input, values: Values): (msg: string)
    ensures name !in rules ==> msg == ""
    ensures name in rules ==> (msg == "" <==> AllPass(rules[name], v, values))
  {
    if name !in rules then "" else FirstError(rules[name], v, values)
  }

  /** The error map as a reader of `errors[name]` sees it: a missing entry is no error. */
  function ErrorOf(errors: map<string, string>, name: string): string
  {
    if name in errors then errors[name] else ""
  }

  /** `touched[name]` is truthy. */
  function IsTouched(touched: map<string, bool>, name: string): bool
  {
    name in touched && touched[name]
  }

  /** The hook's state. */
  datatype FormState = FormState(values: Values, errors: map<string, string>, touched: map<string, bool>)

  /** The state right after the hook mounts. */
  function Initial(initialValues: Values): FormState
  {
    FormState(initialValues, map[], map[])
  }

  /**
   * `handleChange`: store the new value; when the field is already touched,
   * re-validate it with the NEW value but the value map from BEFORE the change.
   */
  function Change(rules: Rules, s: FormState, name: string, value: string): (r: FormState)
    ensures Lookup(r.values, name) == Some(value)
    ensures forall k | k != name :: Lookup(r.values, k) == Lookup(s.values, k)
    ensures r.touched == s.touched
    ensures !IsTouched(s.touched, name) ==> r.errors == s.errors
    ensures IsTouched(s.touched, name) ==>
      && name in r.errors
      && r.errors[name] == ValidateField(rules, name, Some(value), s.values)
      && forall k | k != name :: ErrorOf(r.errors, k) == ErrorOf(s.errors, k)
    ensures r.errors - {name} == s.errors - {name}
  {
    FormState(
      s.values[name := value],
      if IsTouched(s.touched, name) then s.errors[name := ValidateField(rules, name, Some(value), s.values)]
      else s.errors,
      s.touched)
  }

  /** `handleBlur`: mark the field touched and re-validate it against the current values. */
  function Blur(rules: Rules, s: FormState, name: string): (r: FormState)
    ensures IsTouched(r.touched, name)
    ensures forall k | k != name :: IsTouched(r.touched, k) == IsTouched(s.touched, k)
    ensures name in r.errors && r.errors[name] == ValidateField(rules, name, Lookup(s.values, name), s.values)
    ensures forall k | k != name :: ErrorOf(r.errors, k) == ErrorOf(s.errors, k)
    ensures r.errors - {name} == s.errors - {name}
    ensures r.touched - {name} == s.touched - {name}
    ensures r.values == s.values
  {
    FormState(
      s.values,
      s.errors[name := ValidateField(rules, name, Lookup(s.values, name), s.values)],
      s.touched[name := true])
  }

  /** The error map built by `validateForm` from the fields in `fields`. */
  function ErrorsFor(rules: Rules, values: Values, fields: set<string>): map<string, string>
  {
    map f | f in fields && f in rules && ValidateField(rules, f, Lookup(values, f), values) != ""
      :: ValidateField(rules, f, Lookup(values, f), values)
  }

  /** Examining one more field adds its entry exactly when it has rules and fails. */
  lemma ErrorsForInsert(rules: Rules, values: Values, done: set<string>, f: string)
    requires f !in done
    ensures ErrorsFor(rules, values, done + {f}) ==
      if f in rules && ValidateField(rules, f, Lookup(values, f), values) != ""
      then ErrorsFor(rules, values, done)[f := ValidateField(rules, f, Lookup(values, f), values)]
      else ErrorsFor(rules, values, done)
  {
  }

  /** The error map `validateForm` installs: one entry per rule-bearing field that fails. */
  function FormErrors(rules: Rules, values: Values): (errors: map<string, string>)
    ensures errors.Keys <= rules.Keys
    ensures forall f | f in errors :: errors[f] != ""
  {
    ErrorsFor(rules, values, rules.Keys)
  }

  /** One field's entry in the error map `validateForm` installs. */
  lemma FormErrorsEntry(rules: Rules, values: Values, f: string)
    ensures f in FormErrors(rules, values) <==> f in rules && ValidateField(rules, f, Lookup(values, f), values) != ""
    ensures f in FormErrors(rules, values) ==> FormErrors(rules, values)[f] == ValidateField(rules, f, Lookup(values, f), values)
  {
  }

  /** An empty field whose first rule complains about "" gets that rule's message from `validateForm`. */
  lemma {:induction false} EmptyFieldRequired(rules: Rules, f: string, msg: string, values: Values)
    requires f in rules && |rules[f]| > 0 && Lookup(values, f) == Some("")
    requires Verdict(rules[f][0], Some(""), values) == msg != ""
    ensures f in FormErrors(rules, values) && FormErrors(rules, values)[f] == msg
  {
    FirstFailingRuleWins(rules[f], Some(""), values, 0);
    FormErrorsEntry(rules, values, f);
  }

  /** `validateForm`: replace the error map wholesale. */
  function Validate(rules: Rules, s: FormState): (r: FormState)
    ensures forall f :: f in r.errors <==> f in rules && !AllPass(rules[f], Lookup(s.values, f), s.values)
    ensures r.values == s.values && r.touched == s.touched
  {
    s.(errors := FormErrors(rules, s.values))
  }

  /** The boolean `validateForm` returns. */
  function IsValid(rules: Rules, values: Values): bool
  {
    FormErrors(rules, values) == map[]
  }

  /** A rule list that never looks at the value map, only at the field's own value. */
  ghost predicate IgnoresValueMap(rules: seq<Rule>)
  {
    forall i, v, m1, m2 | 0 <= i < |rules| :: rules[i](v, m1) == rules[i](v, m2)
  }

  /** Every field's rules ignore the value map (true of the example rule set). */
  ghost predicate ValueOnly(rules: Rules)
  {
    forall f | f in rules :: IgnoresValueMap(rules[f])
  }

  /** Every touched field shows the error its rules give for its current value. */
  ghost predicate ErrorsCurrent(rules: Rules, s: FormState)
  {
    forall n | IsTouched(s.touched, n) ::
      ErrorOf(s.errors, n) == ValidateField(rules, n, Lookup(s.values, n), s.values)
  }

  /** One user interaction with the hook. */
  datatype Event = Changed(name: string, value: string) | Blurred(name: string) | Submitted

  function Step(rules: Rules, s: FormState, e: Event): FormState
  {
    match e
    case Changed(name, value) => Change(rules, s, name, value)
    case Blurred(name) => Blur(rules, s, name)
    case Submitted => Validate(rules, s)
  }

  /** The state after the events, in order. */
  function Run(rules: Rules, s: FormState, events: seq<Event>): FormState
    decreases |events|
  {
    if events == [] then s else Run(rules, Step(rules, s, events[0]), events[1..])
  }

  /** Rule priority: when rule `k` is the first to complain, its message is the field's error. */
  lemma {:induction false} FirstFailingRuleWins(rules: seq<Rule>, v: Input, values: Values, k: nat)
    requires k < |rules| && Verdict(rules[k], v, values) != ""
    requires forall j | 0 <= j < k :: Verdict(rules[j], v, values) == ""
    ensures FirstError(rules, v, values) == Verdict(rules[k], v, values)
  {
    if k > 0 {
      assert Verdict(rules[0], v, values) == "";
      FirstFailingRuleWins(rules[1..], v, values, k - 1);
    }
  }

  /** Blurring the same field twice in a row is the same as blurring it once. */
  lemma BlurIdempotent(rules: Rules, s: FormState, name: string)
    ensures Blur(rules, Blur(rules, s, name), name) == Blur(rules, s, name)
  {
  }

  /**
   * Each entry `validateForm` installs is that field's first failing message,
   * and it answers true iff every field with rules passes.
   */
  lemma ValidateFormSpec(rules: Rules, s: FormState)
    ensures forall f | f in Validate(rules, s).errors ::
      Validate(rules, s).errors[f] == FirstError(rules[f], Lookup(s.values, f), s.values) != ""
    ensures IsValid(rules, s.values) <==>
      forall f | f in rules :: AllPass(rules[f], Lookup(s.values, f), s.values)
  {
    if !IsValid(rules, s.values) {
      var f :| f in FormErrors(rules, s.values);
      assert !AllPass(rules[f], Lookup(s.values, f), s.values);
    }
  }

  /** A touched flag, once set, stays set whatever follows. */
  lemma {:induction false} TouchedStaysTouched(rules: Rules, s: FormState, events: seq<Event>, n: string)
    requires IsTouched(s.touched, n)
    ensures IsTouched(Run(rules, s, events).touched, n)
    decreases |events|
  {
    if events != [] {
      TouchedStaysTouched(rules, Step(rules, s, events[0]), events[1..], n);
    }
  }

  /**
   * No premature validation: while a field is neither blurred nor the form
   * submitted, changes (to it or any other field) leave its error as it was
   * and it stays untouched.
   */
  lemma {:induction false} NoErrorWithoutBlur(rules: Rules, s: FormState, events: seq<Event>, n: string)
    requires !IsTouched(s.touched, n)
    requires forall i | 0 <= i < |events| :: events[i] != Blurred(n) && !events[i].Submitted?
    ensures n in Run(rules, s, events).errors <==> n in s.errors
    ensures ErrorOf(Run(rules, s, events).errors, n) == ErrorOf(s.errors, n)
    ensures !IsTouched(Run(rules, s, events).touched, n)
    decreases |events|
  {
    if events != [] {
      var s' := Step(rules, s, events[0]);
      assert (n in s'.errors <==> n in s.errors) && ErrorOf(s'.errors, n) == ErrorOf(s.errors, n);
      NoErrorWithoutBlur(rules, s', events[1..], n);
    }
  }

  /** From a freshly mounted form, a field never blurred or submitted has no error. */
  lemma FreshFieldHasNoError(rules: Rules, initialValues: Values, events: seq<Event>, n: string)
    requires forall i | 0 <= i < |events| :: events[i] != Blurred(n) && !events[i].Submitted?
    ensures n !in Run(rules, Initial(initialValues), events).errors
  {
    NoErrorWithoutBlur(rules, Initial(initialValues), events, n);
  }

  /** A rule list that ignores the value map gives the same error under any value map. */
  lemma {:induction false} FirstErrorIgnoresValueMap(rules: seq<Rule>, v: Input, m1: Values, m2: Values)
    requires IgnoresValueMap(rules)
    ensures FirstError(rules, v, m1) == FirstError(rules, v, m2)
  {
    if rules != [] {
      assert rules[0](v, m1) == rules[0](v, m2);
      assert IgnoresValueMap(rules[1..]) by {
        forall i, v', n1, n2 | 0 <= i < |rules[1..]| ensures rules[1..][i](v', n1) == rules[1..][i](v', n2) {
          assert rules[1..][i] == rules[i + 1];
        }
      }
      FirstErrorIgnoresValueMap(rules[1..], v, m1, m2);
    }
  }

  /** One interaction keeps every touched field's error current, for rules that ignore the value map. */
  lemma StepKeepsErrorsCurrent(rules: Rules, s: FormState, e: Event)
    requires ValueOnly(rules) && ErrorsCurrent(rules, s)
    ensures ErrorsCurrent(rules, Step(rules, s, e))
  {
    var s' := Step(rules, s, e);
    forall n | IsTouched(s'.touched, n)
      ensures ErrorOf(s'.errors, n) == ValidateField(rules, n, Lookup(s'.values, n), s'.values)
    {
      if n in rules {
        FirstErrorIgnoresValueMap(rules[n], Lookup(s'.values, n), s.values, s'.values);
      }
    }
  }

  /**
   * After any interactions, every touched field shows the first failing rule
   * for its current value, provided no rule reads the value map.
   */
  lemma {:induction false} RunKeepsErrorsCurrent(rules: Rules, s: FormState, events: seq<Event>)
    requires ValueOnly(rules) && ErrorsCurrent(rules, s)
    ensures ErrorsCurrent(rules, Run(rules, s, events))
    decreases |events|
  {
    if events != [] {
      StepKeepsErrorsCurrent(rules, s, events[0]);
      RunKeepsErrorsCurrent(rules, Step(rules, s, events[0]), events[1..]);
    }
  }

  /** A rule that reads its own field from the value map rather than its argument. */
  function EmptyInMap(v: Input, m: Values): Option<string>
  {
    if Lookup(m, "a") == Some("") then Some("empty") else None
  }

  /**
   * `handleChange` hands the rule the value map from before the change: a rule
   * that reads the field from the map keeps reporting the old value's error.
   */
  lemma StaleValueMapOnChange()
    ensures var rules := map["a" := [EmptyInMap]];
      var s := Change(rules, Blur(rules, Initial(map["a" := ""]), "a"), "a", "x");
      && Lookup(s.values, "a") == Some("x")
      && ErrorOf(s.errors, "a") == "empty"
      && ValidateField(rules, "a", Lookup(s.values, "a"), s.values) == ""
  {
    var rules := map["a" := [EmptyInMap]];
    var s := Change(rules, Blur(rules, Initial(map["a" := ""]), "a"), "a", "x");
    assert FirstError(rules["a"], Some(""), map["a" := ""]) == "empty";
    assert Verdict(rules["a"][0], Lookup(s.values, "a"), s.values) == "";
  }

  /** The hook instance, its three state maps updated in place. */
  class Form {
    const rules: Rules
    var values: Values
    var errors: map<string, string>
    var touched: map<string, bool>

    function State(): FormState
      reads this
    {
      FormState(values, errors, touched)
    }

    constructor (initialValues: Values, validationRules: Rules)
      ensures rules == validationRules
      ensures State() == Initial(initialValues)
    {
      rules := validationRules;
      values := initialValues;
      errors := map[];
      touched := map[];
    }

    method HandleChange(name: string, value: string)
      modifies this
      ensures State() == Change(rules, old(State()), name, value)
    {
      var captured := values;
      values := values[name := value];
      if IsTouched(touched, name) {
        var error := ValidateField(rules, name, Some(value), captured);
        errors := errors[name := error];
      }
    }

    method HandleBlur(name: string)
      modifies this
      ensures State() == Blur(rules, old(State()), name)
    {
      touched := touched[name := true];
      var error := ValidateField(rules, name, Lookup(values, name), values);
      errors := errors[name := error];
    }

    method ValidateForm() returns (isValid: bool)
      modifies this
      ensures State() == Validate(rules, old(State()))
      ensures isValid == IsValid(rules, values)
    {
      var newErrors: map<string, string> := map[];
      isValid := true;
      var pending := rules.Keys;
      assert ErrorsFor(rules, values, {}) == map[];
      while pending != {}
        invariant pending <= rules.Keys
        invariant newErrors == ErrorsFor(rules, values, rules.Keys - pending)
        invariant isValid == (newErrors == map[])
        invariant values == old(values) && touched == old(touched)
        decreases pending
      {
        var field :| field in pending;
        ErrorsForInsert(rules, values, rules.Keys - pending, field);
        assert rules.Keys - (pending - {field}) == (rules.Keys - pending) + {field};
        var error := ValidateField(rules, field, Lookup(values, field), values);
        if error != "" {
          newErrors := newErrors[field := error];
          assert field in newErrors;
          isValid := false;
        }
        pending := pending - {field};
      }
      assert rules.Keys - pending == rules.Keys;
      errors := newErrors;
    }
  }
}

/**
 * The registration page (`RegisterComponent`): a reactive form with the
 * controls `username`, `password` and `confirmPassword`, a group validator
 * that compares the two passwords, and the `isLoading` / `errorMessage`
 * state of a submission.
 *
 * A form's validity is kept by Angular: when a control's value changes, the
 * control's own validators recompute its errors, then the group's validator
 * runs over the whole group (`Edit` below). The group validator of the
 * source never clears the `passwordMismatch` error it puts on
 * `confirmPassword`; `EditAsWritten` models that and `StaleMismatchRejects`
 * exhibits the effect, while the component uses the corrected validator.
 */
module Registration {
  import opened Wrappers
  import opened Session
  import Text

  datatype Field = Username | Password | ConfirmPassword

  /** The controls in declaration order, which is the order `Object.keys` lists them. */
  const FieldOrder: seq<Field> := [Username, Password, ConfirmPassword]

  datatype ErrorKey = Required | MinLength | PasswordMismatch

  /** One form control: its value, its validation errors (empty for `null`) and whether it was touched. */
  datatype Control = Control(value: string, errors: set<ErrorKey>, touched: bool)

  /** The form group: its controls and the errors its own validator returned. */
  datatype FormGroup = FormGroup(controls: map<Field, Control>, errors: set<ErrorKey>)

  const DefaultFailure := "Erreur lors de la création du compte"

  /**
   * The control validators: `username` and `password` are required and, once
   * not empty, at least 3 long (`minLength` lets the empty value through);
   * `confirmPassword` is required. Lengths are JavaScript's, in UTF-16 code
   * units.
   */
  function OwnErrors(field: Field, value: string): (errors: set<ErrorKey>)
    ensures errors == {} <==> if field == ConfirmPassword then value != "" else Text.JsLength(value) >= 3
  {
    var required := if value == "" then {Required} else {};
    if field == ConfirmPassword then required
    else required + (if value != "" && Text.JsLength(value) < 3 then {MinLength} else {})
  }

  /** A user name of two characters, one of them beyond U+FFFF, is 3 long in JavaScript and accepted. */
  lemma AstralCharacterCountsTwice()
    ensures |"\U{1F600}a"| == 2
    ensures Text.JsLength("\U{1F600}a") == 3
    ensures OwnErrors(Username, "\U{1F600}a") == {}
  {
    var s := "\U{1F600}a";
    assert s[1..] == "a";
    assert s[1..][1..] == "";
  }

  /** All three controls are present. */
  predicate Complete(controls: map<Field, Control>)
  {
    Username in controls && Password in controls && ConfirmPassword in controls
  }

  /** `registerForm.valid`: the group and every control are free of errors. */
  predicate FormValid(form: FormGroup)
  {
    form.errors == {} && forall f :: f in form.controls ==> form.controls[f].errors == {}
  }

  /** What the rules ask of the values: a user name and password 3 code units long, confirmed. */
  predicate RulesHold(form: FormGroup)
    requires Complete(form.controls)
  {
    var c := form.controls;
    Text.JsLength(c[Username].value) >= 3 && Text.JsLength(c[Password].value) >= 3 &&
    c[ConfirmPassword].value != "" && c[Password].value == c[ConfirmPassword].value
  }

  /** Both password controls exist and hold different values. */
  predicate Mismatch(controls: map<Field, Control>)
  {
    Password in controls && ConfirmPassword in controls &&
    controls[Password].value != controls[ConfirmPassword].value
  }

  /**
   * `passwordMatchValidator` as written: on a mismatch it overwrites the
   * errors of `confirmPassword` with `{passwordMismatch}` and returns
   * `{passwordMismatch: true}`; otherwise it returns `null` and leaves every
   * control alone. The first component is the group's controls afterwards.
   */
  function PasswordMatchValidator(controls: map<Field, Control>): (r: (map<Field, Control>, set<ErrorKey>))
    ensures r.1 == {PasswordMismatch} <==> Mismatch(controls)
    ensures r.1 == {} <==> !Mismatch(controls)
    ensures r.0.Keys == controls.Keys
    ensures Mismatch(controls) ==> r.0[ConfirmPassword].errors == {PasswordMismatch}
    ensures forall f :: f in controls && (f != ConfirmPassword || !Mismatch(controls)) ==> r.0[f] == controls[f]
    ensures forall f :: f in controls ==> r.0[f].value == controls[f].value && r.0[f].touched == controls[f].touched
  {
    if Mismatch(controls) then
      var confirm := controls[ConfirmPassword];
      (controls[ConfirmPassword := confirm.(errors := {PasswordMismatch})], {PasswordMismatch})
    else
      (controls, {})
  }

  /**
   * The corrected validator: the same on a mismatch, but when the passwords
   * agree it gives `confirmPassword` back the errors of its own validators,
   * so that a `passwordMismatch` set by an earlier run does not linger.
   */
  function PasswordMatchValidatorFixed(controls: map<Field, Control>): (r: (map<Field, Control>, set<ErrorKey>))
    ensures r.1 == {PasswordMismatch} <==> Mismatch(controls)
    ensures r.1 == {} <==> !Mismatch(controls)
    ensures r.0.Keys == controls.Keys
    ensures Mismatch(controls) ==> r.0[ConfirmPassword].errors == {PasswordMismatch}
    ensures !Mismatch(controls) && ConfirmPassword in controls ==>
      r.0[ConfirmPassword].errors == OwnErrors(ConfirmPassword, controls[ConfirmPassword].value)
    ensures forall f :: f in controls && f != ConfirmPassword ==> r.0[f] == controls[f]
    ensures forall f :: f in controls ==> r.0[f].value == controls[f].value && r.0[f].touched == controls[f].touched
  {
    if Mismatch(controls) then
      PasswordMatchValidator(controls)
    else if ConfirmPassword in controls then
      var confirm := controls[ConfirmPassword];
      (controls[ConfirmPassword := confirm.(errors := OwnErrors(ConfirmPassword, confirm.value))], {})
    else
      (controls, {})
  }

  /** A control after its value changed: the new value and the errors its own validators give it. */
  function Revalidated(form: FormGroup, field: Field, value: string): map<Field, Control>
    requires field in form.controls
  {
    form.controls[field := form.controls[field].(value := value, errors := OwnErrors(field, value))]
  }

  /** Angular's update after `field` changes to `value`, with the validator as written. */
  function EditAsWritten(form: FormGroup, field: Field, value: string): FormGroup
    requires field in form.controls
  {
    var r := PasswordMatchValidator(Revalidated(form, field, value));
    FormGroup(r.0, r.1)
  }

  /** The same update with the corrected validator. */
  function Edit(form: FormGroup, field: Field, value: string): FormGroup
    requires field in form.controls
  {
    var r := PasswordMatchValidatorFixed(Revalidated(form, field, value));
    FormGroup(r.0, r.1)
  }

  /** The controls as the form builder creates them: empty, validated, untouched. */
  function NewControls(): map<Field, Control>
  {
    map[Username := Control("", OwnErrors(Username, ""), false),
        Password := Control("", OwnErrors(Password, ""), false),
        ConfirmPassword := Control("", OwnErrors(ConfirmPassword, ""), false)]
  }

  /** The form after construction: the group validator has run once over the empty controls. */
  function InitialForm(): FormGroup
  {
    var r := PasswordMatchValidatorFixed(NewControls());
    FormGroup(r.0, r.1)
  }

  /** The errors the corrected form keeps: each control's own, overridden by a mismatch on `confirmPassword`. */
  ghost predicate Consistent(form: FormGroup)
  {
    var c := form.controls;
    Complete(c) &&
    c[Username].errors == OwnErrors(Username, c[Username].value) &&
    c[Password].errors == OwnErrors(Password, c[Password].value) &&
    form.errors == (if Mismatch(c) then {PasswordMismatch} else {}) &&
    c[ConfirmPassword].errors ==
      (if Mismatch(c) then {PasswordMismatch} else OwnErrors(ConfirmPassword, c[ConfirmPassword].value))
  }

  /** What the form as written keeps: the same, except that a stale mismatch may survive on `confirmPassword`. */
  ghost predicate ConsistentAsWritten(form: FormGroup)
  {
    var c := form.controls;
    Complete(c) &&
    c[Username].errors == OwnErrors(Username, c[Username].value) &&
    c[Password].errors == OwnErrors(Password, c[Password].value) &&
    form.errors == (if Mismatch(c) then {PasswordMismatch} else {}) &&
    (Mismatch(c) ==> c[ConfirmPassword].errors == {PasswordMismatch}) &&
    (!Mismatch(c) ==>
       c[ConfirmPassword].errors == OwnErrors(ConfirmPassword, c[ConfirmPassword].value) ||
       c[ConfirmPassword].errors == {PasswordMismatch})
  }

  lemma InitialFormConsistent()
    ensures Consistent(InitialForm())
    ensures ConsistentAsWritten(InitialForm())
    ensures !FormValid(InitialForm())
  {
    var c := NewControls();
    assert !Mismatch(c);
    assert InitialForm().controls[ConfirmPassword].errors == {Required};
  }

  /** Every edit keeps the corrected form consistent. */
  lemma EditKeepsConsistent(form: FormGroup, field: Field, value: string)
    requires Consistent(form)
    ensures Consistent(Edit(form, field, value))
  {
    var after := Edit(form, field, value);
    assert after.controls[Username].errors == OwnErrors(Username, after.controls[Username].value);
    assert after.controls[Password].errors == OwnErrors(Password, after.controls[Password].value);
  }

  /** Every edit keeps the form as written within its weaker invariant. */
  lemma EditAsWrittenKeepsConsistent(form: FormGroup, field: Field, value: string)
    requires ConsistentAsWritten(form)
    ensures ConsistentAsWritten(EditAsWritten(form, field, value))
  {
    var after := EditAsWritten(form, field, value);
    assert after.controls[Username].errors == OwnErrors(Username, after.controls[Username].value);
    assert after.controls[Password].errors == OwnErrors(Password, after.controls[Password].value);
  }

  /** With the corrected validator the form is valid exactly when the rules hold. */
  lemma ConsistentValidIffRules(form: FormGroup)
    requires Consistent(form)
    ensures FormValid(form) <==> RulesHold(form)
  {
    var c := form.controls;
    if RulesHold(form) {
      assert !Mismatch(c);
      forall f | f in c ensures c[f].errors == {} {
        if f == ConfirmPassword {
          assert c[f].errors == OwnErrors(ConfirmPassword, c[f].value);
        }
      }
    }
    if FormValid(form) {
      assert c[Username].errors == {} && c[Password].errors == {} && c[ConfirmPassword].errors == {};
    }
  }

  /** As written, the form never accepts values that break the rules. */
  lemma AsWrittenValidImpliesRules(form: FormGroup)
    requires ConsistentAsWritten(form)
    ensures FormValid(form) ==> RulesHold(form)
  {
    var c := form.controls;
    if FormValid(form) {
      assert c[Username].errors == {} && c[Password].errors == {} && c[ConfirmPassword].errors == {};
    }
  }

  /**
   * As written, it can reject values that satisfy them: type a user name, the
   * password `abcd`, the confirmation `abc`, then correct the password to
   * `abc`. The mismatch error set on `confirmPassword` stays, so the form is
   * invalid although both passwords agree and every rule holds.
   */
  lemma StaleMismatchRejects()
    ensures var f1 := EditAsWritten(InitialForm(), Username, "bob");
            var f2 := EditAsWritten(f1, Password, "abcd");
            var f3 := EditAsWritten(f2, ConfirmPassword, "abc");
            var f4 := EditAsWritten(f3, Password, "abc");
            Complete(f4.controls) && RulesHold(f4) && !FormValid(f4)
  {
    InitialFormConsistent();
    var f1 := EditAsWritten(InitialForm(), Username, "bob");
    var f2 := EditAsWritten(f1, Password, "abcd");
    assert f2.controls[ConfirmPassword].value == "" && f2.controls[Password].value == "abcd";
    var f3 := EditAsWritten(f2, ConfirmPassword, "abc");
    assert Mismatch(Revalidated(f2, ConfirmPassword, "abc"));
    assert f3.controls[ConfirmPassword].errors == {PasswordMismatch};
    var f4 := EditAsWritten(f3, Password, "abc");
    assert !Mismatch(Revalidated(f3, Password, "abc"));
    assert f4.controls[ConfirmPassword].errors == {PasswordMismatch};
  }

  class RegisterComponent {
    var form: FormGroup
    var isLoading: bool
    var errorMessage: string

    ghost predicate Valid()
      reads this
    {
      Consistent(form)
    }

    constructor ()
      ensures form == InitialForm() && !isLoading && errorMessage == ""
      ensures Valid() && !FormValid(form)
    {
      form := InitialForm();
      isLoading := false;
      errorMessage := "";
      InitialFormConsistent();
    }

    /** The user changes one control; Angular revalidates the control, then the group. */
    method SetValue(field: Field, value: string)
      requires Valid()
      modifies this
      ensures Valid()
      ensures form == Edit(old(form), field, value)
      ensures FormValid(form) <==> RulesHold(form)
      ensures isLoading == old(isLoading) && errorMessage == old(errorMessage)
    {
      EditKeepsConsistent(form, field, value);
      form := Edit(form, field, value);
      ConsistentValidIffRules(form);
    }

    /** `markFormGroupTouched`: every control, in `Object.keys` order, is marked touched. */
    method MarkFormGroupTouched()
      requires Valid()
      modifies this
      ensures Valid()
      ensures form.errors == old(form.errors) && form.controls.Keys == old(form.controls.Keys)
      ensures forall f :: f in form.controls ==>
        form.controls[f] == old(form.controls[f]).(touched := true)
      ensures isLoading == old(isLoading) && errorMessage == old(errorMessage)
    {
      var i := 0;
      while i < |FieldOrder|
        invariant 0 <= i <= |FieldOrder|
        invariant form.errors == old(form.errors) && form.controls.Keys == old(form.controls.Keys)
        invariant forall f :: f in form.controls ==>
          form.controls[f] == old(form.controls[f]).(touched := f in FieldOrder[..i] || old(form.controls[f]).touched)
        invariant isLoading == old(isLoading) && errorMessage == old(errorMessage)
      {
        var key := FieldOrder[i];
        if key in form.controls {
          form := form.(controls := form.controls[key := form.controls[key].(touched := true)]);
        }
        i := i + 1;
      }
      forall f | f in form.controls ensures form.controls[f] == old(form.controls[f]).(touched := true) {
        assert FieldOrder[..i] == [Username, Password, ConfirmPassword];
        assert f == Username || f == Password || f == ConfirmPassword;
      }
    }

    /**
     * `onSubmit`: a valid form starts the request, with only the user name and
     * the password, and shows the spinner; an invalid one makes no request
     * and marks every control touched.
     */
    method OnSubmit() returns (request: Option<RegisterRequest>)
      requires Valid()
      modifies this
      ensures Valid()
      ensures old(FormValid(form)) ==>
        request == Some(RegisterRequest(form.controls[Username].value, form.controls[Password].value)) &&
        isLoading && errorMessage == "" && form == old(form)
      ensures !old(FormValid(form)) ==>
        request == None && isLoading == old(isLoading) && errorMessage == old(errorMessage) &&
        form.errors == old(form.errors) && form.controls.Keys == old(form.controls.Keys) &&
        forall f :: f in form.controls ==> form.controls[f] == old(form.controls[f]).(touched := true)
    {
      if FormValid(form) {
        isLoading := true;
        errorMessage := "";
        request := Some(RegisterRequest(form.controls[Username].value, form.controls[Password].value));
      } else {
        MarkFormGroupTouched();
        request := None;
      }
    }

    /** The `next` handler: the spinner stops; a failure shows its message, or the default one. */
    method OnNext(response: AuthResponse)
      modifies this
      ensures !isLoading && form == old(form)
      ensures response.success ==> errorMessage == old(errorMessage)
      ensures !response.success ==>
        errorMessage == if response.message.Some? && response.message.value != "" then response.message.value
                        else DefaultFailure
    {
      isLoading := false;
      if !response.success {
        errorMessage := if response.message.Some? && response.message.value != "" then response.message.value
                        else DefaultFailure;
      }
    }

    /** The `error` handler: the spinner stops and the server error is shown. */
    method OnError()
      modifies this
      ensures !isLoading && form == old(form)
      ensures errorMessage == ServerUnreachable
    {
      isLoading := false;
      errorMessage := ServerUnreachable;
    }
  }
}

/**
 * The sign-up form (frontend/screens/SignUp.js): `validateFields` builds an
 * error dictionary one condition after another, and `handleSignUp` sends the
 * registration only when that dictionary is empty, with the age converted by
 * `parseInt`.
 */
module SignUpScreen {
  import opened Wrappers
  import opened Js
  import opened UserModel
  import opened AuthRoutes

  /** The keys of the error dictionary. */
  datatype Field = Username | Email | Password | ConfirmPassword | Gender | Age

  /** The translation keys the dictionary's entries hold. */
  datatype ErrorText = Required | PasswordMismatch | InvalidAge

  /** `!age || isNaN(age) || age <= 0`: the string is converted by Number() for both tests. */
  predicate AgeInvalid(age: string) {
    age == "" || StringToNumber(age).NaN? || StringToNumber(age).value <= 0.0
  }

  /** The form as the user filled it in. */
  datatype Form = Form(username: string, email: string, password: string, confirmPassword: string,
                       gender: string, age: string)

  /** The form raises no error: the condition under which a request is sent. */
  predicate Acceptable(f: Form) {
    && !AllWhiteSpace(f.username) && !AllWhiteSpace(f.email)
    && f.password != "" && f.confirmPassword != "" && f.password == f.confirmPassword
    && f.gender != "" && !AgeInvalid(f.age)
  }

  /**
   * `errors` is the dictionary `validateFields` builds for `f`: one entry per
   * failed condition, the mismatch replacing nothing but reported only when
   * both passwords are present.
   */
  ghost predicate Describes(errors: map<Field, ErrorText>, f: Form) {
    && (Username in errors <==> AllWhiteSpace(f.username))
    && (Email in errors <==> AllWhiteSpace(f.email))
    && (Password in errors <==> f.password == "")
    && (ConfirmPassword in errors <==> f.confirmPassword == "" || (f.password != "" && f.password != f.confirmPassword))
    && (Gender in errors <==> f.gender == "")
    && (Age in errors <==> AgeInvalid(f.age))
    && (forall k | k in errors && k != ConfirmPassword && k != Age :: errors[k] == Required)
    && (ConfirmPassword in errors ==> errors[ConfirmPassword] == if f.confirmPassword == "" then Required else PasswordMismatch)
    && (Age in errors ==> errors[Age] == InvalidAge)
  }

  /** `if (cond) newErrors.k = v`. */
  function Flag(errors: map<Field, ErrorText>, cond: bool, k: Field, v: ErrorText): map<Field, ErrorText> {
    if cond then errors[k := v] else errors
  }

  /** The outcome of each test `validateFields` makes, in its order. */
  datatype Checks = Checks(blankUsername: bool, blankEmail: bool, noPassword: bool, noConfirm: bool,
                           mismatch: bool, noGender: bool, badAge: bool)

  /** The tests as written: `!x.trim()`, `!x`, both passwords present and different, and the age test. */
  function FormChecks(f: Form): Checks {
    Checks(Trim(f.username) == [], Trim(f.email) == [], f.password == "", f.confirmPassword == "",
           f.password != "" && f.confirmPassword != "" && f.password != f.confirmPassword,
           f.gender == "", f.age == "" || StringToNumber(f.age).NaN? || StringToNumber(f.age).value <= 0.0)
  }

  /**
   * The dictionary built by one conditional assignment per test, in order;
   * the mismatch comes after the missing confirmation and can overwrite it.
   */
  function ErrorsFor(c: Checks): map<Field, ErrorText> {
    var e0: map<Field, ErrorText> := map[];
    var e1 := Flag(e0, c.blankUsername, Username, Required);
    var e2 := Flag(e1, c.blankEmail, Email, Required);
    var e3 := Flag(e2, c.noPassword, Password, Required);
    var e4 := Flag(e3, c.noConfirm, ConfirmPassword, Required);
    var e5 := Flag(e4, c.mismatch, ConfirmPassword, PasswordMismatch);
    var e6 := Flag(e5, c.noGender, Gender, Required);
    Flag(e6, c.badAge, Age, InvalidAge)
  }

  /** Each key is present exactly when its test failed, holding the message set last. */
  lemma ErrorsForSpec(c: Checks)
    ensures Username in ErrorsFor(c) <==> c.blankUsername
    ensures Email in ErrorsFor(c) <==> c.blankEmail
    ensures Password in ErrorsFor(c) <==> c.noPassword
    ensures ConfirmPassword in ErrorsFor(c) <==> c.noConfirm || c.mismatch
    ensures Gender in ErrorsFor(c) <==> c.noGender
    ensures Age in ErrorsFor(c) <==> c.badAge
    ensures forall k | k in ErrorsFor(c) && k != ConfirmPassword && k != Age :: ErrorsFor(c)[k] == Required
    ensures ConfirmPassword in ErrorsFor(c) ==>
      ErrorsFor(c)[ConfirmPassword] == if c.mismatch then PasswordMismatch else Required
    ensures Age in ErrorsFor(c) ==> ErrorsFor(c)[Age] == InvalidAge
  {
  }

  /** The dictionary `validateFields` builds for the form. */
  function FieldErrors(f: Form): map<Field, ErrorText> {
    ErrorsFor(FormChecks(f))
  }

  /** The dictionary holds exactly the failed conditions, with the message each one sets last. */
  lemma FieldErrorsSpec(f: Form)
    ensures Describes(FieldErrors(f), f)
  {
    ErrorsForSpec(FormChecks(f));
  }

  /** The dictionary is empty exactly when the form is acceptable. */
  lemma EmptyExactlyWhenAcceptable(errors: map<Field, ErrorText>, f: Form)
    requires Describes(errors, f)
    ensures errors == map[] <==> Acceptable(f)
  {
    if !Acceptable(f) {
      var k :=
        if AllWhiteSpace(f.username) then Username
        else if AllWhiteSpace(f.email) then Email
        else if f.password == "" then Password
        else if f.confirmPassword == "" || f.password != f.confirmPassword then ConfirmPassword
        else if f.gender == "" then Gender
        else Age;
      assert k in errors;
    } else {
      forall k: Field
        ensures k !in errors
      {
      }
      assert errors.Keys == {};
    }
  }

  /** The `age` of the request: `parseInt(age)`, and NaN, which JSON writes as null, as None. */
  function SentAge(age: string): (r: Option<real>)
    ensures r.Some? <==> ParseInt(age).Some?
  {
    match ParseInt(age)
    case Some(n) => Some(n as real)
    case None => None
  }

  /** The age as validated: `Number(age)`, positive whenever the form is accepted. */
  function IntendedAge(age: string): (r: Option<real>)
    ensures !AgeInvalid(age) ==> r.Some? && r.value > 0.0
    ensures r.Some? ==> StringToNumber(age) == Finite(r.value)
  {
    match StringToNumber(age)
    case Finite(v) => Some(v)
    case NaN => None
  }

  /** An age the form accepts can still be read by parseInt as zero. */
  lemma FractionalAgeSentAsZero()
    ensures !AgeInvalid("0.5") && SentAge("0.5") == Some(0.0)
    ensures IntendedAge("0.5") == Some(0.5)
  {
    var age := "0.5";
    assert |age| == 3 && age[0] == '0' && age[1] == '.' && age[2] == '5';
    ZeroPointFiveAccepted(age);
  }

  /** An age the form accepts can be unreadable to parseInt, and is then sent as null. */
  lemma LeadingDotAgeSentAsNull()
    ensures !AgeInvalid(".5") && SentAge(".5") == None
    ensures IntendedAge(".5") == Some(0.5)
  {
    PointFive(".5");
  }

  /** `0.5` passes validation, is validated as one half and is sent as zero. */
  lemma ZeroPointFiveAccepted(age: string)
    requires |age| == 3 && age[0] == '0' && age[1] == '.' && age[2] == '5'
    ensures !AgeInvalid(age) && SentAge(age) == Some(0.0) && IntendedAge(age) == Some(0.5)
  {
    ZeroPointFive(age);
  }

  /** `0.5`: Number reads one half, parseInt stops at the point after reading zero. */
  lemma ZeroPointFive(age: string)
    requires |age| == 3 && age[0] == '0' && age[1] == '.' && age[2] == '5'
    ensures StringToNumber(age) == Finite(0.5) && ParseInt(age) == Some(0)
  {
    TrimUnpadded(age);
    assert DigitRun(age, false) == 1 by {
      assert DigitRun(age[1..], false) == 0;
    }
    assert age[..1] == "0";
    assert DigitsValue("0", false) == 0 by {
      assert DigitsValue("0"[..0], false) == 0;
    }
    HalfFraction(age[2..]);
  }

  /** `.5`: Number reads one half, parseInt finds no digit. */
  lemma PointFive(age: string)
    requires |age| == 2 && age[0] == '.' && age[1] == '5'
    ensures StringToNumber(age) == Finite(0.5) && ParseInt(age) == None
  {
    TrimUnpadded(age);
    assert DigitRun(age, false) == 0;
    assert age[..0] == [];
    HalfFraction(age[1..]);
  }

  /** The fraction digits `5` after a point. */
  lemma HalfFraction(f: string)
    requires |f| == 1 && f[0] == '5'
    ensures DigitRun(f, false) == 1 && f[..1] == f && FractionValue(f) == 0.5
  {
    assert DigitRun(f[1..], false) == 0;
    assert FractionValue(f[1..]) == 0.0;
  }

  /** The request `handleSignUp` builds for an accepted form. */
  function Request(f: Form): RegisterBody {
    RegisterBody(Some(f.email), Some(f.password), Some(f.username), Some(f.gender), SentAge(f.age))
  }

  /**
   * A request the form sends passes the backend's required-path check
   * exactly when parseInt can read the age.
   */
  lemma SentFormPassesRequired(f: Form, salt: nat, id: UserId)
    requires Acceptable(f)
    ensures NewUser(Request(f), salt, id).Some? <==> ParseInt(f.age).Some?
  {
    assert f.username != "" && f.email != "";
  }

  /** The request with the age validation checked, `Number(age)`, instead of `parseInt(age)`. */
  function IntendedRequest(f: Form): RegisterBody {
    RegisterBody(Some(f.email), Some(f.password), Some(f.username), Some(f.gender), IntendedAge(f.age))
  }

  /** With the validated age sent, every accepted form registers, with the positive age the form shows. */
  lemma AcceptedFormRegisters(f: Form, salt: nat, id: UserId)
    requires Acceptable(f)
    ensures NewUser(IntendedRequest(f), salt, id).Some?
    ensures var u := NewUser(IntendedRequest(f), salt, id).value;
      u.age > 0.0 && StringToNumber(f.age) == Finite(u.age)
  {
    assert f.username != "" && f.email != "";
  }

  class SignUp {
    var username: string
    var email: string
    var password: string
    var confirmPassword: string
    var gender: string
    var age: string
    var errors: map<Field, ErrorText>

    function Filled(): Form
      reads this
    {
      Form(username, email, password, confirmPassword, gender, age)
    }

    constructor ()
      ensures Filled() == Form("", "", "", "", "", "") && errors == map[]
    {
      username, email, password, confirmPassword, gender, age := "", "", "", "", "", "";
      errors := map[];
    }

    /** `validateFields`: stores the dictionary and reports whether it is empty. */
    method ValidateFields() returns (valid: bool)
      modifies this
      ensures Filled() == old(Filled())
      ensures Describes(errors, Filled())
      ensures valid <==> Acceptable(Filled())
    {
      var newErrors := FieldErrors(Filled());
      FieldErrorsSpec(Filled());
      errors := newErrors;
      EmptyExactlyWhenAcceptable(newErrors, Filled());
      valid := |newErrors| == 0;
    }

    /** `handleSignUp`: no request for a form with errors; otherwise the fields as typed and the age through parseInt. */
    method HandleSignUp() returns (request: Option<RegisterBody>)
      modifies this
      ensures Filled() == old(Filled())
      ensures Describes(errors, Filled())
      ensures request.Some? <==> Acceptable(Filled())
      ensures request.Some? ==> request.value == Request(Filled())
    {
      var valid := ValidateFields();
      if !valid {
        return None;
      }
      request := Some(RegisterBody(Some(email), Some(password), Some(username), Some(gender), SentAge(age)));
    }
  }
}

/** The registration form's password rules (`RegisterComponent`): five criteria, the
    validator that reports the failed ones, the strength meter that counts the met ones,
    the validity check, the error message ladder and the confirmation match. */
module Register {
  import opened Wrappers
  import opened Strings

  /** The characters `/[!@#$%^&*()_+\-=\[\]{};':"\\|,.<>\/?]/` accepts. */
  const SpecialChars: string := "!@#$%^&*()_+-=[]{};':\"\\|,.<>/?"

  const MinPasswordLength: nat := 8

  /** `/[A-Z]/.test(p)`. */
  predicate HasUpperCase(p: string) {
    exists i :: 0 <= i < |p| && IsUpper(p[i])
  }

  /** `/[a-z]/.test(p)`. */
  predicate HasLowerCase(p: string) {
    exists i :: 0 <= i < |p| && IsLower(p[i])
  }

  /** `/[0-9]/.test(p)`. */
  predicate HasNumber(p: string) {
    exists i :: 0 <= i < |p| && IsDigit(p[i])
  }

  /** The special-character class test. */
  predicate HasSpecialChar(p: string) {
    exists i :: 0 <= i < |p| && p[i] in SpecialChars
  }

  predicate HasMinLength(p: string) {
    |p| >= MinPasswordLength
  }

  /** A validation-error value: `true`, or the `minlength` record. */
  datatype ErrorValue = Flag | MinLength(requiredLength: int, actualLength: int)

  type ValidationErrors = map<string, ErrorValue>

  /** The record `strongPasswordValidator` fills for a non-empty value: each failed
      criterion contributes its own key, and nothing else is added. */
  function PasswordErrors(p: string): (e: ValidationErrors)
    ensures "missingUpperCase" in e <==> !HasUpperCase(p)
    ensures "missingLowerCase" in e <==> !HasLowerCase(p)
    ensures "missingNumber" in e <==> !HasNumber(p)
    ensures "missingSpecialChar" in e <==> !HasSpecialChar(p)
    ensures "minlength" in e <==> !HasMinLength(p)
    ensures "minlength" in e ==> e["minlength"] == MinLength(8, |p|)
    ensures forall k :: k in e && k != "minlength" ==> e[k] == Flag
    ensures forall k :: k in e ==>
              k in {"missingUpperCase", "missingLowerCase", "missingNumber", "missingSpecialChar", "minlength"}
  {
    var e0: ValidationErrors := map[];
    var e1 := if !HasUpperCase(p) then e0["missingUpperCase" := Flag] else e0;
    var e2 := if !HasLowerCase(p) then e1["missingLowerCase" := Flag] else e1;
    var e3 := if !HasNumber(p) then e2["missingNumber" := Flag] else e2;
    var e4 := if !HasSpecialChar(p) then e3["missingSpecialChar" := Flag] else e3;
    if !HasMinLength(p) then e4["minlength" := MinLength(MinPasswordLength, |p|)] else e4
  }

  /** `isPasswordValid()`: all five criteria hold. */
  predicate IsPasswordValid(p: string): (b: bool)
    ensures b ==> |p| >= MinPasswordLength
    ensures b <==> forall rule :: RuleHolds(rule, p)
  {
    assert RuleHolds(Required, p) && RuleHolds(LongEnough, p) && RuleHolds(UpperCase, p) &&
           RuleHolds(LowerCase, p) && RuleHolds(Digit, p) && RuleHolds(Special, p) ==>
           HasMinLength(p) && HasUpperCase(p) && HasLowerCase(p) && HasNumber(p) && HasSpecialChar(p);
    HasMinLength(p) && HasUpperCase(p) && HasLowerCase(p) && HasNumber(p) && HasSpecialChar(p)
  }

  /** `strongPasswordValidator(control)`: `None` is the validator's `null`. */
  method StrongPasswordValidator(value: string) returns (r: Option<ValidationErrors>)
    ensures value == "" ==> r == None
    ensures value != "" ==> (r == None <==> IsPasswordValid(value))
    ensures r.Some? ==> r.value == PasswordErrors(value) && |r.value| >= 1
  {
    if value == "" {
      return None;
    }
    var hasUpperCase := HasUpperCase(value);
    var hasLowerCase := HasLowerCase(value);
    var hasNumber := HasNumber(value);
    var hasSpecialChar := HasSpecialChar(value);
    var hasMinLength := |value| >= MinPasswordLength;
    var errors: ValidationErrors := map[];
    if !hasUpperCase {
      errors := errors["missingUpperCase" := Flag];
    }
    if !hasLowerCase {
      errors := errors["missingLowerCase" := Flag];
    }
    if !hasNumber {
      errors := errors["missingNumber" := Flag];
    }
    if !hasSpecialChar {
      errors := errors["missingSpecialChar" := Flag];
    }
    if !hasMinLength {
      errors := errors["minlength" := MinLength(MinPasswordLength, |value|)];
    }
    assert errors == PasswordErrors(value);
    if |errors| == 0 {
      r := None;
    } else {
      r := Some(errors);
    }
    NoErrorsIffValid(value);
  }

  /** The validator's record is empty exactly when the password is valid. */
  lemma NoErrorsIffValid(p: string)
    ensures |PasswordErrors(p)| == 0 <==> IsPasswordValid(p)
  {
    var e := PasswordErrors(p);
    if !IsPasswordValid(p) {
      if !HasUpperCase(p) { assert "missingUpperCase" in e; }
      else if !HasLowerCase(p) { assert "missingLowerCase" in e; }
      else if !HasNumber(p) { assert "missingNumber" in e; }
      else if !HasSpecialChar(p) { assert "missingSpecialChar" in e; }
      else { assert "minlength" in e; }
    } else {
      assert e.Keys == {};
    }
  }

  /** How many of the five criteria hold. */
  function Score(p: string): (n: nat)
    ensures n <= 5
    ensures n == 5 <==> IsPasswordValid(p)
  {
    (if HasUpperCase(p) then 1 else 0) + (if HasLowerCase(p) then 1 else 0) +
    (if HasNumber(p) then 1 else 0) + (if HasSpecialChar(p) then 1 else 0) +
    (if HasMinLength(p) then 1 else 0)
  }

  /** The strength label of a score. */
  function StrengthLabel(strength: nat): string {
    if strength <= 2 then "weak"
    else if strength <= 3 then "medium"
    else if strength <= 4 then "strong"
    else "very-strong"
  }

  /** `getPasswordStrength()`, counting with the source's `strength++` steps. */
  method PasswordStrength(password: string) returns (level: string)
    ensures password == "" ==> level == ""
    ensures password != "" ==> level == StrengthLabel(Score(password))
    ensures password != "" ==> (level == "very-strong" <==> IsPasswordValid(password))
  {
    if password == "" {
      return "";
    }
    var strength := 0;
    if HasUpperCase(password) {
      strength := strength + 1;
    }
    if HasLowerCase(password) {
      strength := strength + 1;
    }
    if HasNumber(password) {
      strength := strength + 1;
    }
    if HasSpecialChar(password) {
      strength := strength + 1;
    }
    if |password| >= MinPasswordLength {
      strength := strength + 1;
    }
    assert strength == Score(password);
    if strength <= 2 {
      level := "weak";
    } else if strength <= 3 {
      level := "medium";
    } else if strength <= 4 {
      level := "strong";
    } else {
      level := "very-strong";
    }
  }

  /** A failed criterion more means a score one lower: the meter and the validator count
      the same failures. */
  lemma ScoreCountsFailures(p: string)
    ensures Score(p) + |PasswordErrors(p)| == 5
  {
    var e0: ValidationErrors := map[];
    var e1 := if !HasUpperCase(p) then e0["missingUpperCase" := Flag] else e0;
    var e2 := if !HasLowerCase(p) then e1["missingLowerCase" := Flag] else e1;
    var e3 := if !HasNumber(p) then e2["missingNumber" := Flag] else e2;
    var e4 := if !HasSpecialChar(p) then e3["missingSpecialChar" := Flag] else e3;
    assert |e1| == if !HasUpperCase(p) then 1 else 0;
    assert |e2| == |e1| + if !HasLowerCase(p) then 1 else 0;
    assert |e3| == |e2| + if !HasNumber(p) then 1 else 0;
    assert |e4| == |e3| + if !HasSpecialChar(p) then 1 else 0;
  }

  /** The control's merged errors: `required` for an empty value; otherwise the
      `minLength(8)` and strong-password validators, whose `minlength` entries coincide. */
  function ControlErrors(value: string): ValidationErrors {
    if value == "" then map["required" := Flag] else PasswordErrors(value)
  }

  const RequiredMessage: string := "Password is required"
  const MinLengthMessage: string := "Password must be at least 8 characters long"
  const UpperCaseMessage: string := "Password must contain at least one uppercase letter"
  const LowerCaseMessage: string := "Password must contain at least one lowercase letter"
  const NumberMessage: string := "Password must contain at least one number"
  const SpecialCharMessage: string := "Password must contain at least one special character (!@#$%^&*()_+-=[]{};':\"\\|,.<>/?)"

  /** The error keys the message reports. */
  const ReportedKeys: set<string> :=
    {"required", "minlength", "missingUpperCase", "missingLowerCase", "missingNumber", "missingSpecialChar"}

  /** `getPasswordErrorMessage()` on the control's errors. */
  function PasswordErrorMessage(errors: ValidationErrors): (r: string)
    ensures "required" in errors ==> r == RequiredMessage
    ensures r == "" <==> forall k :: k in errors ==> k !in ReportedKeys
  {
    if "required" in errors then RequiredMessage
    else if "minlength" in errors then MinLengthMessage
    else if "missingUpperCase" in errors then UpperCaseMessage
    else if "missingLowerCase" in errors then LowerCaseMessage
    else if "missingNumber" in errors then NumberMessage
    else if "missingSpecialChar" in errors then SpecialCharMessage
    else ""
  }

  /** The rules in the order the message reports them. */
  datatype Rule = Required | LongEnough | UpperCase | LowerCase | Digit | Special

  function RuleHolds(rule: Rule, p: string): bool {
    match rule
    case Required => p != ""
    case LongEnough => HasMinLength(p)
    case UpperCase => HasUpperCase(p)
    case LowerCase => HasLowerCase(p)
    case Digit => HasNumber(p)
    case Special => HasSpecialChar(p)
  }

  function RuleMessage(rule: Rule): string {
    match rule
    case Required => RequiredMessage
    case LongEnough => MinLengthMessage
    case UpperCase => UpperCaseMessage
    case LowerCase => LowerCaseMessage
    case Digit => NumberMessage
    case Special => SpecialCharMessage
  }

  const ReportOrder: seq<Rule> := [Required, LongEnough, UpperCase, LowerCase, Digit, Special]

  /** The message for the first rule of `rules` that `p` breaks, or "" when none is. */
  function FirstBrokenMessage(rules: seq<Rule>, p: string): string {
    if rules == [] then ""
    else if !RuleHolds(rules[0], p) then RuleMessage(rules[0])
    else FirstBrokenMessage(rules[1..], p)
  }

  /** The message reports the first broken rule in the order required, minimum length,
      upper case, lower case, digit, special character, and is empty exactly for a valid
      password. */
  lemma PasswordErrorMessageReportsFirstFailure(p: string)
    ensures PasswordErrorMessage(ControlErrors(p)) == FirstBrokenMessage(ReportOrder, p)
    ensures PasswordErrorMessage(ControlErrors(p)) == "" <==> IsPasswordValid(p)
  {
    var r0 := ReportOrder;
    var r1 := [LongEnough, UpperCase, LowerCase, Digit, Special];
    var r2 := [UpperCase, LowerCase, Digit, Special];
    var r3 := [LowerCase, Digit, Special];
    var r4 := [Digit, Special];
    var r5 := [Special];
    assert r0[1..] == r1 && r1[1..] == r2 && r2[1..] == r3 && r3[1..] == r4 && r4[1..] == r5 && r5[1..] == [];
    var m := FirstBrokenMessage(r0, p);
    if p == "" {
      assert m == RequiredMessage;
    } else {
      assert m == FirstBrokenMessage(r1, p);
      if !HasMinLength(p) {
        assert "minlength" in ControlErrors(p);
      } else {
        assert m == FirstBrokenMessage(r2, p);
        if HasUpperCase(p) {
          assert m == FirstBrokenMessage(r3, p);
          if HasLowerCase(p) {
            assert m == FirstBrokenMessage(r4, p);
            if HasNumber(p) {
              assert m == FirstBrokenMessage(r5, p);
            }
          }
        }
      }
    }
    assert |p| >= 8 ==> p != "";
  }

  /** A form control: its value and the errors set on it. */
  class FormControl {
    var value: string
    var errors: Option<ValidationErrors>

    constructor (value: string, errors: Option<ValidationErrors>)
      ensures this.value == value && this.errors == errors
    {
      this.value := value;
      this.errors := errors;
    }
  }

  /** `passwordMatchValidator(form)`: always `null`; a confirmation that differs from the
      password gets its errors replaced by `{passwordMismatch: true}`, and nothing else
      changes. A missing control is `null`. */
  method PasswordMatchValidator(password: FormControl?, confirmation: FormControl?) returns (r: Option<ValidationErrors>)
    modifies confirmation
    ensures r == None
    ensures confirmation != null && password != null && password.value != confirmation.value ==>
              confirmation.errors == Some(map["passwordMismatch" := Flag])
    ensures (confirmation == null || password == null || password.value == confirmation.value) ==>
              confirmation == null || confirmation.errors == old(confirmation.errors)
    ensures confirmation != null ==> confirmation.value == old(confirmation.value)
    ensures password != null ==> password.value == old(password.value)
  {
    if password != null && confirmation != null && password.value != confirmation.value {
      confirmation.errors := Some(map["passwordMismatch" := Flag]);
    }
    return None;
  }
}

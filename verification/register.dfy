/** The registration screen: its submit-time validator, the store write
    that follows a clean validation, and the live password-mismatch hooks
    that run on every keystroke. */
module Register {
  import opened Options
  import opened Patterns
  import opened Navigation
  import opened Storage

  /** The inline error both password fields show. */
  const CheckAgain := "Check Again!"

  /** The four inputs the validator reads. */
  datatype Draft = Draft(email: string, password: string, confirmPassword: string, agreedToTerms: bool)

  /** The validator's checks, each named by what it demands; a failure is
      reported as the check that failed. */
  datatype Check = Required | EmailFormat | PasswordLength | PasswordsMatch | Terms
  {
    /** Position in the order the validator runs the checks. */
    function Rank(): nat {
      match this
      case Required => 0
      case EmailFormat => 1
      case PasswordLength => 2
      case PasswordsMatch => 3
      case Terms => 4
    }

    /** The message `validate` returns when this check fails.  It is never
        empty, so the caller's truthiness test `if (err)` tells every
        failure from success. */
    function Message(): (m: string)
      ensures m != ""
    {
      match this
      case Required => "All fields are required"
      case EmailFormat => "Invalid email"
      case PasswordLength => "Password must be at least 6 characters"
      case PasswordsMatch => "Passwords do not match"
      case Terms => "Please agree to the Terms of Service & Privacy Policy"
    }
  }

  /** What each check demands of the form, independently of the others. */
  predicate Passes(c: Check, d: Draft) {
    match c
    case Required => d.email != "" && d.password != "" && d.confirmPassword != ""
    case EmailFormat => EmailShaped(d.email)
    case PasswordLength => JsLength(d.password) >= 6
    case PasswordsMatch => d.password == d.confirmPassword
    case Terms => d.agreedToTerms
  }

  /** The check chain of `validate`: the first check that fails, or `None`
      (the source's `null`) when every check passes. */
  function FirstFailure(d: Draft): (r: Option<Check>)
    ensures r.None? <==> forall c: Check :: Passes(c, d)
    ensures r.Some? ==> !Passes(r.value, d)
    ensures r.Some? ==> forall c: Check :: c.Rank() < r.value.Rank() ==> Passes(c, d)
  {
    if d.email == "" || d.password == "" || d.confirmPassword == "" then
      assert !Passes(Required, d);
      Some(Required)
    else if !EmailShaped(d.email) then
      assert !Passes(EmailFormat, d);
      Some(EmailFormat)
    else if JsLength(d.password) < 6 then
      assert !Passes(PasswordLength, d);
      Some(PasswordLength)
    else if d.password != d.confirmPassword then
      assert !Passes(PasswordsMatch, d);
      Some(PasswordsMatch)
    else if !d.agreedToTerms then
      assert !Passes(Terms, d);
      Some(Terms)
    else None
  }

  /** The account a successful registration saves. */
  function AccountOf(d: Draft): Account {
    Account(d.email, d.password)
  }

  /** The error both password fields show after a keystroke in one of them:
      `text` is what the edited field now holds, `other` the other field. */
  function LiveMismatch(text: string, other: string): (e: string)
    ensures e == "" || e == CheckAgain
    ensures other == "" ==> e == ""
    ensures other != "" ==> (e == "" <==> text == other)
  {
    if other != "" && text != other then CheckAgain else ""
  }

  /** `passwordError` once `validate` has returned `r`: only the length and
      equality failures mark the password field. */
  function PasswordErrorAfter(r: Option<Check>): string {
    if r == Some(PasswordLength) || r == Some(PasswordsMatch) then CheckAgain else ""
  }

  /** `confirmPasswordError` once `validate` has returned `r`: only the
      equality failure marks the confirmation field. */
  function ConfirmErrorAfter(r: Option<Check>): string {
    if r == Some(PasswordsMatch) then CheckAgain else ""
  }

  class RegisterScreen {
    var email: string
    var password: string
    var confirmPassword: string
    var agreedToTerms: bool
    var passwordError: string
    var confirmPasswordError: string
    /** The account store the screen writes to. */
    const store: Store

    /** The form as the validator sees it. */
    function Form(): Draft
      reads this
    {
      Draft(email, password, confirmPassword, agreedToTerms)
    }

    /** The screen's initial state: empty fields, terms not accepted. */
    constructor (store: Store)
      ensures this.store == store
      ensures Form() == Draft("", "", "", false)
      ensures passwordError == "" && confirmPasswordError == ""
    {
      this.store := store;
      email, password, confirmPassword, agreedToTerms := "", "", "", false;
      passwordError, confirmPasswordError := "", "";
    }

    /** `onChangeText={setEmail}` on the email field. */
    method SetEmail(text: string)
      modifies this`email
      ensures email == text
    {
      email := text;
    }

    /** The terms checkbox flips `agreedToTerms`. */
    method ToggleTerms()
      modifies this`agreedToTerms
      ensures agreedToTerms == !old(agreedToTerms)
    {
      agreedToTerms := !agreedToTerms;
    }

    /** `handlePasswordChange`: stores the new password and shows the
        mismatch error on both fields exactly when the confirmation is
        non-empty and differs; the frame keeps everything else. */
    method HandlePasswordChange(text: string)
      modifies this`password, this`passwordError, this`confirmPasswordError
      ensures password == text
      ensures passwordError == LiveMismatch(text, confirmPassword)
      ensures confirmPasswordError == passwordError
    {
      password := text;
      if confirmPassword != "" && text != confirmPassword {
        passwordError := CheckAgain;
        confirmPasswordError := CheckAgain;
      } else {
        passwordError := "";
        confirmPasswordError := "";
      }
    }

    /** `handleConfirmPasswordChange`: the mirror image, compared against
        the password field. */
    method HandleConfirmPasswordChange(text: string)
      modifies this`confirmPassword, this`passwordError, this`confirmPasswordError
      ensures confirmPassword == text
      ensures passwordError == LiveMismatch(text, password)
      ensures confirmPasswordError == passwordError
    {
      confirmPassword := text;
      if password != "" && text != password {
        passwordError := CheckAgain;
        confirmPasswordError := CheckAgain;
      } else {
        passwordError := "";
        confirmPasswordError := "";
      }
    }

    /** `validate`: clears both errors, then runs the checks in order and
        stops at the first failure.  Only the length check marks the
        password field, only the equality check marks both fields. */
    method Validate() returns (err: Option<Check>)
      modifies this`passwordError, this`confirmPasswordError
      ensures err == FirstFailure(old(Form()))
      ensures passwordError == PasswordErrorAfter(err)
      ensures confirmPasswordError == ConfirmErrorAfter(err)
    {
      passwordError := "";
      confirmPasswordError := "";
      if email == "" || password == "" || confirmPassword == "" {
        return Some(Required);
      }
      if !EmailShaped(email) {
        return Some(EmailFormat);
      }
      if JsLength(password) < 6 {
        passwordError := CheckAgain;
        return Some(PasswordLength);
      }
      if password != confirmPassword {
        passwordError := CheckAgain;
        confirmPasswordError := CheckAgain;
        return Some(PasswordsMatch);
      }
      if !agreedToTerms {
        return Some(Terms);
      }
      return None;
    }

    /** `handleRegister`: a failed validation alerts its message and leaves
        the slot alone; otherwise `{email, password}` replaces whatever the
        slot held and the screen moves to Login, unless the write is
        rejected, which alerts a generic failure. */
    method HandleRegister() returns (o: Outcome)
      modifies this`passwordError, this`confirmPasswordError, store`user
      ensures FirstFailure(old(Form())).Some? ==>
        o == Alert("Validation error", FirstFailure(old(Form())).value.Message()) &&
        store.user == old(store.user)
      ensures FirstFailure(old(Form())).None? && store.accessible ==>
        o == NavigateToLogin && store.user == Some(AccountOf(old(Form())))
      ensures FirstFailure(old(Form())).None? && !store.accessible ==>
        o == Alert("Error", "Failed to create account. Please try again.") &&
        store.user == old(store.user)
      ensures passwordError == PasswordErrorAfter(FirstFailure(old(Form())))
      ensures confirmPasswordError == ConfirmErrorAfter(FirstFailure(old(Form())))
    {
      var err := Validate();
      if err.Some? {
        return Alert("Validation error", err.value.Message());
      }
      var ok := store.SetItem(Account(email, password));
      if ok {
        o := NavigateToLogin;
      } else {
        o := Alert("Error", "Failed to create account. Please try again.");
      }
    }
  }

  // ---------------------------------------------------------------------
  // Properties of the validator

  /** The validator accepts exactly the forms with every field filled, an
      email-shaped address, a password of at least six UTF-16 code units
      equal to its confirmation, and the terms accepted. */
  lemma AcceptedIff(d: Draft)
    ensures FirstFailure(d).None? <==>
      d.email != "" && d.password != "" && d.confirmPassword != "" &&
      EmailShaped(d.email) && JsLength(d.password) >= 6 &&
      d.password == d.confirmPassword && d.agreedToTerms
  {
  }

  /** The contract of `FirstFailure` leaves no choice: any answer that is a
      failing check preceded only by passing ones, or `None` when nothing
      fails, is the one the validator gives. */
  lemma FirstFailureIsUnique(d: Draft, r: Option<Check>)
    requires r.None? <==> forall c: Check :: Passes(c, d)
    requires r.Some? ==> !Passes(r.value, d)
    requires r.Some? ==> forall c: Check :: c.Rank() < r.value.Rank() ==> Passes(c, d)
    ensures r == FirstFailure(d)
  {
  }

  /** An empty email, password or confirmation is reported first, whatever
      the other inputs are. */
  lemma MissingFieldWins(d: Draft)
    requires d.email == "" || d.password == "" || d.confirmPassword == ""
    ensures FirstFailure(d) == Some(Required)
    ensures FirstFailure(d).value.Message() == "All fields are required"
  {
  }

  /** Registration refuses a phone number as the identifier, even though
      login accepts one. */
  lemma PhoneRejectedAtRegistration(d: Draft)
    requires PhoneShaped(d.email)
    ensures FirstFailure(d) == if d.password == "" || d.confirmPassword == "" then Some(Required) else Some(EmailFormat)
  {
  }

  /** A password too short and different from its confirmation gets the
      length message, not the mismatch message. */
  lemma LengthReportedBeforeMismatch(d: Draft)
    requires d.email != "" && d.confirmPassword != "" && EmailShaped(d.email)
    requires d.password != "" && JsLength(d.password) < 6
    ensures FirstFailure(d) == Some(PasswordLength)
    ensures FirstFailure(d).value.Message() == "Password must be at least 6 characters"
  {
  }

  /** Once both password fields hold text, the live hook flags exactly the
      mismatch the submit-time equality check would reject, and it does so
      whichever of the two fields was edited last. */
  lemma LiveMismatchAgreesWithSubmit(d: Draft)
    requires d.password != "" && d.confirmPassword != ""
    ensures LiveMismatch(d.password, d.confirmPassword) == CheckAgain <==> !Passes(PasswordsMatch, d)
    ensures LiveMismatch(d.password, d.confirmPassword) == LiveMismatch(d.confirmPassword, d.password)
  {
  }

  // ---------------------------------------------------------------------
  // Registration scenarios

  lemma ExampleAddressIsEmail()
    ensures EmailShaped("user@example.com")
  {
    var s := "user@example.com";
    assert s[5..12] == "example";
    assert NonSpace(s, 5, 12);
    assert EmailMatchAt(s, 4, 12);
  }

  lemma WellFormedRegistration()
    ensures FirstFailure(Draft("user@example.com", "abcdef", "abcdef", true)) == None
  {
    ExampleAddressIsEmail();
  }

  lemma BadEmailRegistration()
    ensures FirstFailure(Draft("bad-email", "abcdef", "abcdef", true)) == Some(EmailFormat)
  {
  }

  lemma WeakPasswordRegistration()
    ensures FirstFailure(Draft("user@example.com", "abc", "abc", true)) == Some(PasswordLength)
  {
    ExampleAddressIsEmail();
  }

  lemma MismatchRegistration(agreed: bool)
    ensures FirstFailure(Draft("user@example.com", "abcdef", "abcxyz", agreed)) == Some(PasswordsMatch)
  {
    ExampleAddressIsEmail();
  }
}

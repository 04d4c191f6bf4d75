/** The login screen: a chain of early-return guards over the typed
    identifier and password and the account held in the store, and the
    typing handlers that clear a field's error. */
module Login {
  import opened Options
  import opened Patterns
  import opened Navigation
  import opened Storage

  const InvalidMail := "Invalid Mail"
  const InvalidPassword := "Invalid Password"

  /** The guards of `handleLogin`, each named by what it demands; a failure
      is reported as the guard that stopped the handler. */
  datatype Guard = Filled | IdentifierFormat | PasswordLength | AccountExists | EmailMatches | PasswordMatches
  {
    /** Position in the order the handler runs the guards. */
    function Rank(): nat {
      match this
      case Filled => 0
      case IdentifierFormat => 1
      case PasswordLength => 2
      case AccountExists => 3
      case EmailMatches => 4
      case PasswordMatches => 5
    }
  }

  /** What each guard demands, independently of the others.  The two
      comparison guards only speak about an account that exists. */
  predicate Passes(g: Guard, email: string, password: string, slot: Option<Account>) {
    match g
    case Filled => email != "" && password != ""
    case IdentifierFormat => EmailShaped(email) || PhoneShaped(email)
    case PasswordLength => JsLength(password) >= 6
    case AccountExists => slot.Some?
    case EmailMatches => slot.None? || slot.value.email == email
    case PasswordMatches => slot.None? || slot.value.password == password
  }

  /** The guard chain of `handleLogin` against the slot's content: the
      first guard that fails, or `None` when the handler reaches Home. */
  function Authenticate(email: string, password: string, slot: Option<Account>): (r: Option<Guard>)
    ensures r.None? <==> forall g: Guard :: Passes(g, email, password, slot)
    ensures r.Some? ==> !Passes(r.value, email, password, slot)
    ensures r.Some? ==> forall g: Guard :: g.Rank() < r.value.Rank() ==> Passes(g, email, password, slot)
  {
    if email == "" || password == "" then
      assert !Passes(Filled, email, password, slot);
      Some(Filled)
    else if !EmailShaped(email) && !PhoneShaped(email) then
      assert !Passes(IdentifierFormat, email, password, slot);
      Some(IdentifierFormat)
    else if JsLength(password) < 6 then
      assert !Passes(PasswordLength, email, password, slot);
      Some(PasswordLength)
    else if slot.None? then
      assert !Passes(AccountExists, email, password, slot);
      Some(AccountExists)
    else if slot.value.email != email then
      assert !Passes(EmailMatches, email, password, slot);
      Some(EmailMatches)
    else if slot.value.password != password then
      assert !Passes(PasswordMatches, email, password, slot);
      Some(PasswordMatches)
    else None
  }

  /** The guards the handler settles before it reads the store. */
  predicate DecidedLocally(r: Option<Guard>) {
    r.Some? && r.value.Rank() < AccountExists.Rank()
  }

  /** What the screen shows once the handler returns. */
  datatype Effect = Effect(outcome: Outcome, emailError: string, passwordError: string)

  /** The visible effect of each way the guard chain ends: an alert for the
      failures no single field is to blame for, an inline error on the field
      at fault otherwise, and Home when every guard passes. */
  function EffectOf(r: Option<Guard>): (e: Effect)
    ensures e.outcome == ReplaceWithHome <==> r.None?
    ensures e.emailError == "" || e.passwordError == ""
    ensures e.outcome.Alert? ==> e.emailError == "" && e.passwordError == ""
    ensures e.outcome == FieldErrorsOnly <==> e.emailError != "" || e.passwordError != ""
    ensures e.emailError != "" <==> r == Some(IdentifierFormat) || r == Some(EmailMatches)
    ensures e.passwordError != "" <==> r == Some(PasswordLength) || r == Some(PasswordMatches)
  {
    match r
    case None => Effect(ReplaceWithHome, "", "")
    case Some(Filled) => Effect(Alert("Validation", "Please fill all fields"), "", "")
    case Some(IdentifierFormat) => Effect(FieldErrorsOnly, InvalidMail, "")
    case Some(PasswordLength) => Effect(FieldErrorsOnly, "", InvalidPassword)
    case Some(AccountExists) => Effect(Alert("Not found", "No user found. Please register first."), "", "")
    case Some(EmailMatches) => Effect(FieldErrorsOnly, InvalidMail, "")
    case Some(PasswordMatches) => Effect(FieldErrorsOnly, "", InvalidPassword)
  }

  class LoginScreen {
    var email: string
    var password: string
    var emailError: string
    var passwordError: string
    /** The account store the screen reads. */
    const store: Store

    /** The screen's initial state: both fields and both errors empty. */
    constructor (store: Store)
      ensures this.store == store
      ensures email == "" && password == "" && emailError == "" && passwordError == ""
    {
      this.store := store;
      email, password, emailError, passwordError := "", "", "", "";
    }

    /** `onChangeText` of the identifier field: typing clears only the
        identifier's error. */
    method EditEmail(text: string)
      modifies this`email, this`emailError
      ensures email == text && emailError == ""
    {
      email := text;
      emailError := "";
    }

    /** `onChangeText` of the password field: typing clears only the
        password's error. */
    method EditPassword(text: string)
      modifies this`password, this`passwordError
      ensures password == text && passwordError == ""
    {
      password := text;
      passwordError := "";
    }

    /** `handleLogin`: clears both errors and runs the guards; the store is
        read only once the three local guards pass, and it is never
        written.  A rejected read alerts a generic failure. */
    method HandleLogin() returns (o: Outcome)
      modifies this`emailError, this`passwordError
      ensures DecidedLocally(Authenticate(email, password, store.user)) || store.accessible ==>
        Effect(o, emailError, passwordError) == EffectOf(Authenticate(email, password, store.user))
      ensures !DecidedLocally(Authenticate(email, password, store.user)) && !store.accessible ==>
        o == Alert("Error", "Failed to login. Please try again.") && emailError == "" && passwordError == ""
      ensures o == ReplaceWithHome <==> store.accessible && Authenticate(email, password, store.user).None?
      ensures emailError == "" || passwordError == ""
    {
      emailError := "";
      passwordError := "";
      if email == "" || password == "" {
        return Alert("Validation", "Please fill all fields");
      }
      if !EmailShaped(email) && !PhoneShaped(email) {
        emailError := InvalidMail;
        return FieldErrorsOnly;
      }
      if JsLength(password) < 6 {
        passwordError := InvalidPassword;
        return FieldErrorsOnly;
      }
      var s := store.GetItem();
      if s.Unavailable? {
        return Alert("Error", "Failed to login. Please try again.");
      }
      if s.slot.None? {
        return Alert("Not found", "No user found. Please register first.");
      }
      var user := s.slot.value;
      if user.email != email {
        emailError := InvalidMail;
        return FieldErrorsOnly;
      }
      if user.password != password {
        passwordError := InvalidPassword;
        return FieldErrorsOnly;
      }
      return ReplaceWithHome;
    }
  }

  // ---------------------------------------------------------------------
  // Properties of the authenticator

  /** Login succeeds exactly when both fields are filled, the identifier is
      an email or a 10-digit phone number, the password has at least six
      UTF-16 code units, and the slot holds precisely these credentials. */
  lemma AuthenticatedIff(email: string, password: string, slot: Option<Account>)
    ensures Authenticate(email, password, slot).None? <==>
      email != "" && password != "" && (EmailShaped(email) || PhoneShaped(email)) &&
      JsLength(password) >= 6 && slot == Some(Account(email, password))
  {
  }

  /** A failure of the first three guards does not depend on the store:
      the same inputs fail the same way whatever the slot holds. */
  lemma LocalGuardsIgnoreStore(email: string, password: string, slot: Option<Account>, other: Option<Account>)
    requires DecidedLocally(Authenticate(email, password, slot))
    ensures Authenticate(email, password, other) == Authenticate(email, password, slot)
  {
  }

  /** A short password is flagged on the password field even when no
      account has been registered. */
  lemma ShortPasswordBeforeStore(email: string, password: string, slot: Option<Account>)
    requires email != "" && (EmailShaped(email) || PhoneShaped(email))
    requires password != "" && JsLength(password) < 6
    ensures Authenticate(email, password, slot) == Some(PasswordLength)
    ensures EffectOf(Authenticate(email, password, slot)) == Effect(FieldErrorsOnly, "", InvalidPassword)
  {
  }

  /** A wrong identifier is reported before a wrong password: when both
      differ from the stored account, only the identifier's error shows. */
  lemma EmailMismatchBeforePassword(email: string, password: string, a: Account)
    requires email != "" && (EmailShaped(email) || PhoneShaped(email))
    requires password != "" && JsLength(password) >= 6
    requires a.email != email
    ensures Authenticate(email, password, Some(a)) == Some(EmailMatches)
    ensures EffectOf(Authenticate(email, password, Some(a))) == Effect(FieldErrorsOnly, InvalidMail, "")
  {
  }

  // ---------------------------------------------------------------------
  // Login scenarios

  lemma ShortAddressIsEmail()
    ensures EmailShaped("a@b.com")
    ensures EmailShaped("wrong@b.com")
  {
    assert EmailMatchAt("a@b.com", 1, 3);
    assert EmailMatchAt("wrong@b.com", 5, 7);
  }

  lemma NoAccountScenario()
    ensures Authenticate("user@example.com", "abcdef", None) == Some(AccountExists)
  {
    var s := "user@example.com";
    assert s[5..12] == "example";
    assert EmailMatchAt(s, 4, 12);
  }

  lemma WrongPasswordScenario()
    ensures Authenticate("a@b.com", "wrongpw", Some(Account("a@b.com", "abcdef"))) == Some(PasswordMatches)
  {
    ShortAddressIsEmail();
  }

  lemma WrongIdentifierScenario()
    ensures Authenticate("wrong@b.com", "abcdef", Some(Account("a@b.com", "abcdef"))) == Some(EmailMatches)
  {
    ShortAddressIsEmail();
  }
}

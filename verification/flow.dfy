/** The credential flow across the two screens: what registration writes
    into the slot is what login later compares against. */
module Flow {
  import opened Options
  import opened Patterns
  import opened Navigation
  import opened Storage
  import Register
  import Login

  /** An account the registration validator would accept as it stands
      (password and confirmation equal, terms accepted). */
  predicate Registrable(a: Account) {
    Register.FirstFailure(Register.Draft(a.email, a.password, a.password, true)).None?
  }

  /** Everything a successful registration saves is registrable: the slot
      only ever holds an email-shaped address and a password of at least
      six code units. */
  lemma SavedAccountIsRegistrable(d: Register.Draft)
    requires Register.FirstFailure(d).None?
    ensures Registrable(Register.AccountOf(d))
    ensures EmailShaped(d.email) && JsLength(d.password) >= 6
  {
  }

  /** After a successful registration with (e, p), logging in with (e, p)
      passes every guard. */
  lemma RegisterThenLogin(d: Register.Draft)
    requires Register.FirstFailure(d).None?
    ensures Login.Authenticate(d.email, d.password, Some(Register.AccountOf(d))).None?
  {
  }

  /** Against a registered account, login succeeds with exactly that
      account's credentials and with nothing else. */
  lemma OnlyOwnCredentials(a: Account, email: string, password: string)
    requires Registrable(a)
    ensures Login.Authenticate(email, password, Some(a)).None? <==> email == a.email && password == a.password
  {
  }

  /** A 10-digit phone number passes login's identifier guard but can never
      authenticate against a registered account, whose address contains
      an `@`: the identifier comparison fails once the password is long
      enough. */
  lemma PhoneNeverAuthenticates(a: Account, phone: string, password: string)
    requires Registrable(a)
    requires PhoneShaped(phone)
    ensures Login.Authenticate(phone, password, Some(a)) ==
      if password == "" then Some(Login.Filled)
      else if JsLength(password) < 6 then Some(Login.PasswordLength)
      else Some(Login.EmailMatches)
  {
  }

  /** Sign up with a valid form and the terms accepted, then sign in with
      the same credentials on a working store: the first screen moves to
      Login and the second goes Home. */
  method SignUpThenSignIn() returns (registered: Outcome, loggedIn: Outcome)
    ensures registered == NavigateToLogin
    ensures loggedIn == ReplaceWithHome
  {
    var store := new Store(true);
    var signUp := new Register.RegisterScreen(store);
    signUp.SetEmail("user@example.com");
    signUp.HandlePasswordChange("abcdef");
    signUp.HandleConfirmPasswordChange("abcdef");
    signUp.ToggleTerms();
    var form := Register.Draft("user@example.com", "abcdef", "abcdef", true);
    assert signUp.Form() == form;
    Register.WellFormedRegistration();
    assert Register.FirstFailure(signUp.Form()).None?;
    registered := signUp.HandleRegister();
    assert store.user == Some(Register.AccountOf(form));
    RegisterThenLogin(form);

    var signIn := new Login.LoginScreen(store);
    signIn.EditEmail(form.email);
    signIn.EditPassword(form.password);
    assert signIn.email == form.email && signIn.password == form.password;
    loggedIn := signIn.HandleLogin();
  }
}

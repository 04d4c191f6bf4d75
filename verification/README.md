# Cerope sign-up and sign-in, modelled in Dafny

Cerope is a React Native front-end. Its only logic is the credential flow
across two screens. The registration screen validates a form of email,
password, confirmation and a terms checkbox, and then saves
`{email, password}` into the single AsyncStorage slot `"user"`. The login
screen runs a chain of guards over an identifier (an email or a 10-digit
phone number) and a password. It compares them with the stored record and
goes to Home when every guard passes.

The model is split into these modules:

- `Patterns` holds the two regular expressions as predicates.
  - `EmailShaped` is the unanchored `/\S+@\S+\.\S+/`.
  - `IsWhitespace` is `\s`. It is the full ECMAScript set of whitespace
    and line-terminator code points, written out, rather than an abstract
    character class.
  - `PhoneShaped` is the anchored `/^[0-9]{10}$/`.
  - `JsLength` is the UTF-16 `length` that the password checks use.
  - `RegexTest` is the reference meaning of an unanchored test: some
    substring lies in the pattern's language. It is proved equal to
    `EmailShaped`.
- `Storage` holds the `Account` record and a `Store` class for the `"user"`
  slot. Whether the persistence medium answers is a constructor parameter,
  `accessible`.
- `Register` models the registration screen.
  - The ordered checks are a datatype `Check`, each with a rank and a
    message.
  - `FirstFailure` is the pure check chain, specified as "the first failing
    check, or `None` when all pass".
  - The screen itself is a class, `RegisterScreen`, whose fields are the
    React state variables. Its methods are `validate`, `handleRegister`, the
    two live mismatch handlers, and the email and terms setters.
    `Validate`, `HandleRegister` and the two live handlers are proved
    against the pure functions `FirstFailure` and `LiveMismatch`. The two
    setters state the field they assign, and their frames keep every other
    field.
- `Login` models the login screen in the same way.
  - The guards are a datatype `Guard`, and `Authenticate` is the pure guard
    chain.
  - `EffectOf` maps each way the chain can end to the alert, field errors or
    navigation the user sees.
  - `LoginScreen` has `handleLogin` and the two typing handlers.
- `Flow` holds the cross-screen properties:
  - registering and then logging in with the same credentials succeeds;
  - a registered account accepts only its own credentials;
  - a phone number never authenticates.
  - `SignUpThenSignIn` drives both screens: sign up with a valid form, then
    sign in with the same credentials.

Navigation and alerts become an `Outcome` value (`Navigation`). Alert
titles and messages are the source's exact strings.

## Model

| member | source | states |
|---|---|---|
| `Patterns.JsLength` | screens/RegisterScreen.js:42 | `password.length` counts UTF-16 code units: between the number of code points and twice it, and equal to it exactly when no code point lies outside the Basic Multilingual Plane |
| `Patterns.EmailShapedIsRegexTest` | screens/RegisterScreen.js:36-37 | the local-window predicate used for `re.test(email)` holds exactly when some substring of the input is in the language of `\S+@\S+\.\S+` (both directions) |
| `Patterns.MatchAtGivesRegexTest` | screens/RegisterScreen.js:36-37 | a match window `@` at p, `.` at q yields a substring in the regex language |
| `Patterns.RegexTestGivesMatchAt` | screens/RegisterScreen.js:36-37 | any substring in the regex language yields a match window, so the test succeeds |
| `Patterns.IsWhitespace` | screens/RegisterScreen.js:36 | `\s` is the ECMAScript WhiteSpace and LineTerminator set; `@`, `.` and the ASCII digits are never whitespace, so they always match `\S` |
| `Patterns.EmailShaped` | screens/RegisterScreen.js:36-37 | `re.test(email)` (also `emailRegex.test(email)` at screens/LoginScreen.js:34 and 37): some `@` has a non-whitespace character before it, then a run of non-whitespace up to a `.`, then a non-whitespace character; a passing string has at least 5 characters and contains `@` and `.` |
| `Patterns.PhoneShaped` | screens/LoginScreen.js:35-37 | `phoneRegex.test(email)`: exactly 10 ASCII digits; a passing string contains neither `@` nor `.` |
| `Patterns.PhoneIsNotEmail` | screens/LoginScreen.js:34-37 | the email and phone patterns are disjoint: no 10-digit string passes the email test |
| `Storage.Store.constructor` | screens/LoginScreen.js:50-51 | a store that was never written holds no account, so `getItem` yields null |
| `Storage.Store.SetItem` | screens/RegisterScreen.js:85 | a write succeeds exactly when the medium answers; then the slot holds exactly the new account, whatever it held before; a rejected write leaves it unchanged |
| `Storage.Store.GetItem` | screens/LoginScreen.js:50-55 | a read returns the slot's content, or a rejection when the medium does not answer |
| `Register.Check.Message` | screens/RegisterScreen.js:31-57 | every failure message is non-empty, so `if (err)` at line 75 tells each failure from `null` |
| `Register.FirstFailure` | screens/RegisterScreen.js:31-60 | `None` exactly when all five checks pass; otherwise the returned check fails and every check ranked before it passes (required, email, length, equality, terms) |
| `Register.AcceptedIff` | screens/RegisterScreen.js:31-60 | validation returns null iff all fields are non-empty, the email is shaped, the password has at least 6 code units, equals the confirmation, and the terms are accepted |
| `Register.FirstFailureIsUnique` | screens/RegisterScreen.js:31-60 | the first-failure contract determines the result: only the first failing check is ever reported |
| `Register.MissingFieldWins` | screens/RegisterScreen.js:31-33 | an empty email, password or confirmation gives "All fields are required" whatever the other inputs are |
| `Register.PhoneRejectedAtRegistration` | screens/RegisterScreen.js:36-39 | a 10-digit phone number is refused as the registration identifier ("Invalid email" once the password fields are filled) |
| `Register.LengthReportedBeforeMismatch` | screens/RegisterScreen.js:42-52 | a short password with a different confirmation yields the length message, not the mismatch message |
| `Register.LiveMismatch` | screens/RegisterScreen.js:101-107 | the live error is "Check Again!" or empty; it is always empty while the other field is empty (the `confirmPassword &&` test, and `password &&` at line 116); otherwise it is empty exactly when the two fields are equal |
| `Register.LiveMismatchAgreesWithSubmit` | screens/RegisterScreen.js:98-124 | with both password fields filled, the live hook flags exactly the inequality the submit-time check rejects, whichever field was edited |
| `Register.ExampleAddressIsEmail` | screens/RegisterScreen.js:36-37 | "user@example.com" passes the email test |
| `Register.WellFormedRegistration` | screens/RegisterScreen.js:31-60 | ("user@example.com", "abcdef", "abcdef", agreed) validates |
| `Register.BadEmailRegistration` | screens/RegisterScreen.js:36-39 | "bad-email" fails with the email check |
| `Register.WeakPasswordRegistration` | screens/RegisterScreen.js:42-45 | password "abc" fails with the length check |
| `Register.MismatchRegistration` | screens/RegisterScreen.js:48-52 | "abcdef" against "abcxyz" fails with the equality check, terms or not |
| `Register.RegisterScreen.constructor` | screens/RegisterScreen.js:14-21 | the screen starts with empty fields, terms unticked and no errors |
| `Register.RegisterScreen.SetEmail` | screens/RegisterScreen.js:203 | typing in the email field sets only the email |
| `Register.RegisterScreen.ToggleTerms` | screens/RegisterScreen.js:292 | the checkbox flips `agreedToTerms` and nothing else |
| `Register.RegisterScreen.HandlePasswordChange` | screens/RegisterScreen.js:98-109 | the password becomes the typed text; both errors become "Check Again!" iff the confirmation is non-empty and differs, and are empty otherwise; email, confirmation, terms and the store are untouched |
| `Register.RegisterScreen.HandleConfirmPasswordChange` | screens/RegisterScreen.js:113-124 | the mirror image of the password handler, compared against the password |
| `Register.RegisterScreen.Validate` | screens/RegisterScreen.js:25-61 | returns the first failing check of the current form; afterwards `passwordError` is "Check Again!" only after the length or equality failure, `confirmPasswordError` only after the equality failure, and both are empty otherwise |
| `Register.RegisterScreen.HandleRegister` | screens/RegisterScreen.js:65-94 | a failed validation alerts its message and leaves the slot untouched; a clean one replaces the slot with exactly `{email, password}` and navigates to Login, or alerts the generic failure and leaves the slot when the write is rejected |
| `Login.Authenticate` | screens/LoginScreen.js:28-70 | `None` (reach Home) exactly when all six guards pass; otherwise the returned guard fails and every guard before it passes (filled, identifier shape, length, account present, email equal, password equal) |
| `Login.EffectOf` | screens/LoginScreen.js:28-70 | Home iff every guard passed; at most one of the two field errors is set; alerts set no field error; the identifier error shows only after the shape or email-equality failure, the password error only after the length or password-equality failure |
| `Login.AuthenticatedIff` | screens/LoginScreen.js:28-70 | login succeeds iff both fields are filled, the identifier is email- or phone-shaped, the password has at least 6 code units, and the slot holds exactly these credentials |
| `Login.LocalGuardsIgnoreStore` | screens/LoginScreen.js:28-50 | a failure of the first three guards is the same whatever the slot holds: they run before the store is read |
| `Login.ShortPasswordBeforeStore` | screens/LoginScreen.js:43-46 | a short password is flagged "Invalid Password" even when no account exists |
| `Login.EmailMismatchBeforePassword` | screens/LoginScreen.js:58-67 | a stored email differing from the input is reported on the identifier field before any password comparison |
| `Login.ShortAddressIsEmail` | screens/LoginScreen.js:34-37 | "a@b.com" and "wrong@b.com" pass the email test |
| `Login.NoAccountScenario` | screens/LoginScreen.js:50-54 | with an empty slot, ("user@example.com", "abcdef") stops at the no-account guard |
| `Login.WrongPasswordScenario` | screens/LoginScreen.js:64-67 | against {a@b.com, abcdef}, ("a@b.com", "wrongpw") stops at the password comparison |
| `Login.WrongIdentifierScenario` | screens/LoginScreen.js:58-61 | against {a@b.com, abcdef}, ("wrong@b.com", "abcdef") stops at the email comparison |
| `Login.LoginScreen.constructor` | screens/LoginScreen.js:13-18 | the screen starts with empty fields and no errors |
| `Login.LoginScreen.EditEmail` | screens/LoginScreen.js:165-168 | typing in the identifier field sets it and clears only its error |
| `Login.LoginScreen.EditPassword` | screens/LoginScreen.js:197-200 | typing in the password field sets it and clears only its error |
| `Login.LoginScreen.HandleLogin` | screens/LoginScreen.js:22-75 | the outcome and both errors are those of the guard chain on the current fields and slot; a rejected read after the local guards alerts the generic failure with no field error; Home iff the store answers and every guard passes; never both errors; the store is not written |
| `Flow.SavedAccountIsRegistrable` | screens/RegisterScreen.js:74-85 | an account saved by a successful registration has an email-shaped address and a password of at least 6 code units |
| `Flow.RegisterThenLogin` | screens/LoginScreen.js:28-70 | after registering (e, p), logging in with (e, p) passes every guard |
| `Flow.OnlyOwnCredentials` | screens/LoginScreen.js:58-70 | against a registered account, login succeeds exactly with that account's email and password |
| `Flow.PhoneNeverAuthenticates` | screens/LoginScreen.js:34-70 | a 10-digit identifier passes the shape guard but never authenticates against a registered account; with a long enough password it stops at the email comparison |
| `Flow.SignUpThenSignIn` | screens/RegisterScreen.js:65-94 | typing a valid form, signing up and then signing in with the same credentials on a working store navigates to Login and then replaces the stack with Home |

## Left out

- The JSON encoding of the stored record is not modelled. `JSON.stringify` and `JSON.parse` are treated as the identity, so a malformed stored value cannot arise.
- Asynchronous I/O is not modelled. Each AsyncStorage call completes before the handler goes on; a second submit while one is in flight is not modelled.
- The logging is left out: the `console.log` and `console.error` calls have no observable effect here.
- `Alert.alert`, `navigation.navigate('Login')` and `navigation.replace('Home')` are only an `Outcome` value.
- An exception thrown by navigation inside the `try` blocks is not modelled. The catch-all alerts arise only from a storage medium that does not answer (`Store.accessible` is false).
- React's batching of state updates is not modelled. The handlers only write state and never read back what they wrote, so applying the writes in order gives the same final state.
- The show/hide password toggles and the remember-me checkbox are left out. They are UI flags that no check reads.
- The "Sign in" and "Register" links are left out. They only navigate.
- The home, profile and shared component screens, the app shell and the styling configuration are not part of this model. They are layout.
- The JavaScript regex engine works on UTF-16 code units and the model on code points. The two are the same for `\S`, `@`, `.` and `[0-9]`, because a surrogate half is never whitespace. The model uses exact code-unit counts only for `length`, through `JsLength`.

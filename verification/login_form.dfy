/** `ui/compose/LoginScreen.kt`: the checks the sign-in button runs before
    calling the view-model, and the arguments it passes. */
module LoginForm {
  import opened Wrappers
  import opened Text
  import opened FormRules
  import LoginViewModel

  const UserEmpty: string := "El campo de usuario no puede estar vacío"
  const PasswordEmpty: string := "La contraseña no puede estar vacía"

  /** `validateLoginFields`: the first failing check's message, or `None`.
      The password's length is Kotlin's, in UTF-16 code units. */
  function ValidateLoginFields(username: string, password: string, pattern: string -> bool): (r: Option<string>)
    // Each message is returned exactly when its check is the first to fail.
    ensures r == Some(UserEmpty) <==> Trim(username) == []
    ensures r == Some(EmailInvalid) <==> Trim(username) != [] && !pattern(Trim(username))
    ensures r == Some(PasswordEmpty) <==> Trim(username) != [] && pattern(Trim(username)) && password == []
    ensures r == Some(PasswordShort) <==>
      Trim(username) != [] && pattern(Trim(username)) && 0 < Utf16Length(password) < MinPasswordLength
    ensures r == None <==>
      Trim(username) != [] && pattern(Trim(username)) && Utf16Length(password) >= MinPasswordLength
  {
    if Trim(username) == [] then Some(UserEmpty)
    else if !IsValidEmail(Trim(username), pattern) then Some(EmailInvalid)
    else if password == [] then Some(PasswordEmpty)
    else if Utf16Length(password) <= 5 then Some(PasswordShort)
    else None
  }

  /** The checks of `validateLoginFields`, in the order it runs them. */
  function Checks(username: string, password: string, pattern: string -> bool): seq<Check> {
    [ Check(Trim(username) != [], UserEmpty),
      Check(IsValidEmail(Trim(username), pattern), EmailInvalid),
      Check(password != [], PasswordEmpty),
      Check(Utf16Length(password) >= MinPasswordLength, PasswordShort) ]
  }

  /** The validator reports exactly what running its checks in order and
      stopping at the first failure reports. */
  lemma ValidateIsFirstFailure(username: string, password: string, pattern: string -> bool)
    ensures ValidateLoginFields(username, password, pattern) == FirstFailure(Checks(username, password, pattern))
  {
    var c := Checks(username, password, pattern);
    assert FirstFailureFrom(c, 3) == if c[3].passes then None else Some(c[3].message);
    assert FirstFailureFrom(c, 2) == if c[2].passes then FirstFailureFrom(c, 3) else Some(c[2].message);
    assert FirstFailureFrom(c, 1) == if c[1].passes then FirstFailureFrom(c, 2) else Some(c[1].message);
    assert FirstFailureFrom(c, 0) == if c[0].passes then FirstFailureFrom(c, 1) else Some(c[0].message);
  }

  /** Kotlin counts the password in UTF-16 code units, so three emoji, three
      characters, already meet the six-unit minimum. */
  lemma EmojiPasswordAccepted(username: string, pattern: string -> bool)
    requires Trim(username) != [] && pattern(Trim(username))
    ensures ValidateLoginFields(username, "\U{1F600}\U{1F600}\U{1F600}", pattern) == None
  {
    Utf16LengthOfEmoji();
  }

  /** What `onLogin` receives. */
  datatype LoginArgs = LoginArgs(email: string, password: string)

  /** The sign-in button: `onLogin(username.trim(), password)` when the
      fields pass, nothing otherwise. */
  function Submit(username: string, password: string, pattern: string -> bool): (r: Option<LoginArgs>)
    ensures r.Some? <==> ValidateLoginFields(username, password, pattern).None?
    ensures r.Some? ==> r.value == LoginArgs(Trim(username), password)
  {
    if ValidateLoginFields(username, password, pattern).None? then Some(LoginArgs(Trim(username), password))
    else None
  }

  /** What the button sends always passes the checks again: the email is
      non-blank, already trimmed and accepted by the pattern, and the
      password, sent untrimmed, is at least six code units long. Because the
      email arrives trimmed, the view-model's credentials and its parent
      lookup use the same email. */
  lemma SubmittedArgsValid(username: string, password: string, pattern: string -> bool)
    requires Submit(username, password, pattern).Some?
    ensures var a := Submit(username, password, pattern).value;
      && ValidateLoginFields(a.email, a.password, pattern).None?
      && Trim(a.email) == a.email
      && IsValidEmail(a.email, pattern)
      && Utf16Length(a.password) >= MinPasswordLength
      && LoginViewModel.Credentials(a.email, a.password).email == a.email
  {
    TrimIdempotent(username);
  }
}

/**
  The registration page's submit handler: it clears the session error,
  runs three local checks in order, and only when all pass calls the
  register flow, navigating to the login page on success.
*/
module RegistrationPage {
  import opened Js
  import opened Http
  import AuthStore
  import AuthService

  const PasswordMismatch := "Passwords do not match."
  const PasswordTooShort := "Password must be at least 8 characters long."
  const InvalidEmail := "Please enter a valid email address."
  const MinPasswordLength := 8
  const RegisteredTarget := "/login?registration=success"

  /** The body of the register call. */
  datatype RegisterPayload = RegisterPayload(username: string, email: string, password: string)

  /** The local checks, in the order the handler runs them: the first
      failing check's message, or `None` when the form may be sent. */
  function LocalError(email: string, password: string, confirmPassword: string): (r: Option<string>)
    ensures r.None? <==> password == confirmPassword && Utf16Length(password) >= MinPasswordLength && '@' in email
    // a mismatch is reported before the length, the length before the email
    ensures password != confirmPassword ==> r == Some(PasswordMismatch)
    ensures password == confirmPassword && Utf16Length(password) < MinPasswordLength ==> r == Some(PasswordTooShort)
    ensures password == confirmPassword && Utf16Length(password) >= MinPasswordLength && '@' !in email ==> r == Some(InvalidEmail)
  {
    if password != confirmPassword then Some(PasswordMismatch)
    else if Utf16Length(password) < MinPasswordLength then Some(PasswordTooShort)
    else if '@' !in email then Some(InvalidEmail)
    else None
  }

  /** The length rule counts UTF-16 code units: four emoji make a long
      enough password. */
  lemma EmojiPasswordLongEnough()
    ensures LocalError("a@b", "\U{1F600}\U{1F600}\U{1F600}\U{1F600}", "\U{1F600}\U{1F600}\U{1F600}\U{1F600}")
         == None
  {
  }

  class Page {
    var username: string
    var email: string
    var password: string
    var confirmPassword: string
    var localError: string

    constructor ()
      ensures username == "" && email == "" && password == "" && confirmPassword == "" && localError == ""
    {
      username, email, password, confirmPassword := "", "", "", "";
      localError := "";
    }

    /** `handleSubmit(e)` with `reply` the outcome of the register call:
        `registered` is the payload sent, if any, and `navigateTo` the
        page navigated to, if any. Whatever happens, the session is left
        logged out: the handler's own `loginFailure(null)` clears it and
        registering never logs in. */
    method HandleSubmit(store: AuthStore.Store, reply: Outcome)
      returns (registered: Option<RegisterPayload>, navigateTo: Option<string>)
      modifies this`localError, store
      ensures !store.IsAuthenticated()
      ensures LocalError(email, password, confirmPassword).Some? ==>
        localError == LocalError(email, password, confirmPassword).value
        && registered == None && navigateTo == None
        && store.State() == AuthStore.InitialSession
        && store.history == old(store.history) + [AuthStore.Action.LoginFailure(None)]
      ensures LocalError(email, password, confirmPassword).None? ==>
        localError == ""
        && registered == Some(RegisterPayload(username, email, password))
        && (navigateTo.Some? <==> reply.Ok?)
        && (reply.Ok? ==> navigateTo == Some(RegisteredTarget)
                          && store.State() == AuthStore.InitialSession
                          && store.history == old(store.history)
                               + [AuthStore.Action.LoginFailure(None), AuthStore.Action.LoginRequest,
                                  AuthStore.Action.SetState(false, None)])
        && (reply.Err? ==>
              var message := AuthService.RegisterErrorMessage(reply.error);
              store.State() == AuthStore.InitialSession.(error := Some(message))
              && store.history == old(store.history)
                   + [AuthStore.Action.LoginFailure(None), AuthStore.Action.LoginRequest,
                      AuthStore.Action.LoginFailure(Some(message))])
      // the error shown is the code's own message wherever it produces one
      ensures LocalError(email, password, confirmPassword).None? && reply.Err?
              && AuthService.RegisterErrorMessageAsWritten(reply.error).Returns? ==>
        store.error == Some(AuthService.RegisterErrorMessageAsWritten(reply.error).message)
    {
      localError := "";
      store.LoginFailure(None);
      registered, navigateTo := None, None;

      if password != confirmPassword {
        localError := PasswordMismatch;
        return;
      }
      if Utf16Length(password) < MinPasswordLength {
        localError := PasswordTooShort;
        return;
      }
      if '@' !in email {
        localError := InvalidEmail;
        return;
      }

      var payload := RegisterPayload(username, email, password);
      registered := Some(payload);
      var result := AuthService.RegisterUser(store, reply);
      if result.Registered? {
        navigateTo := Some(RegisteredTarget);
      }
    }
  }
}

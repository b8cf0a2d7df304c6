/**
 * The login screen's state holder. Logging in accepts any username that is
 * not blank, whatever the password: it records the username in the user's
 * preferences and then runs the caller's success callback. Either of those
 * two calls may throw; which one does is the parameter `fault`.
 */
module LoginViewModel {
  import opened Wrappers
  import opened Text
  import opened ListContract
  import opened Preferences

  const EmptyUsernameMessage := "Username cannot be empty"
  const LoginFailedPrefix := "Login failed: "

  /** Which call inside the login coroutine throws, if any. */
  datatype LoginFault = NoFault | SaveThrows(e: Exception) | CallbackThrows(e: Exception)

  /**
   * What one login attempt does, as a value: the error it leaves, whether
   * the username was stored, and whether the success callback ran.
   */
  datatype LoginResult = LoginResult(error: Option<string>, saved: bool, callbackRan: bool)

  /**
   * The effect of `attemptLogin` for a username and a fault: a blank
   * username is refused before anything is called; otherwise the username
   * is saved and then the callback runs, and a throw from either ends the
   * attempt with the exception's message. A save that throws stores nothing.
   */
  function AttemptResult(username: string, fault: LoginFault): (r: LoginResult)
    ensures r.saved <==> !IsBlank(username) && !fault.SaveThrows?
    ensures r.callbackRan <==> !IsBlank(username) && !fault.SaveThrows?
    ensures r.error == None <==> !IsBlank(username) && fault.NoFault?
    ensures IsBlank(username) ==> r.error == Some(EmptyUsernameMessage)
    ensures !IsBlank(username) && !fault.NoFault? ==>
              r.error == Some(FailureMessage(LoginFailedPrefix, fault.e))
  {
    if IsBlank(username) then LoginResult(Some(EmptyUsernameMessage), false, false)
    else
      match fault
      case NoFault => LoginResult(None, true, true)
      case SaveThrows(e) => LoginResult(Some(LoginFailedPrefix + MessageText(e)), false, false)
      case CallbackThrows(e) => LoginResult(Some(LoginFailedPrefix + MessageText(e)), true, true)
  }

  /**
   * The error after an attempt is exactly one of the messages `attemptLogin`
   * can set; the refusal message stands apart from every failure message.
   */
  lemma {:induction false} AttemptErrorsAreDistinct(username: string, fault: LoginFault)
    ensures var r := AttemptResult(username, fault);
      r.error.Some? ==> (r.error.value == EmptyUsernameMessage <==> IsBlank(username))
  {
    var r := AttemptResult(username, fault);
    if r.error.Some? && !IsBlank(username) {
      var m := r.error.value;
      assert m[..|LoginFailedPrefix|] == LoginFailedPrefix;
      assert m[0] == 'L' != EmptyUsernameMessage[0];
    }
  }

  class LoginViewModel {
    var username: string
    var password: string
    var isLoading: bool
    var loginError: Option<string>

    /**
     * Between handler calls no login is in flight: the login coroutine runs
     * to its end within `AttemptLogin`, whose `finally` lowers the flag.
     */
    predicate Valid()
      reads this
    {
      !isLoading
    }

    constructor ()
      ensures Valid() && username == "" && password == "" && loginError == None
    {
      username, password, isLoading, loginError := "", "", false, None;
    }

    /** Any edit of the username clears the error. */
    method OnUsernameChange(newUsername: string)
      requires Valid()
      modifies this
      ensures Valid()
      ensures username == newUsername && loginError == None
      ensures password == old(password) && isLoading == old(isLoading)
    {
      username := newUsername;
      loginError := None;
    }

    /** Any edit of the password clears the error; the password is never checked. */
    method OnPasswordChange(newPassword: string)
      requires Valid()
      modifies this
      ensures Valid()
      ensures password == newPassword && loginError == None
      ensures username == old(username) && isLoading == old(isLoading)
    {
      password := newPassword;
      loginError := None;
    }

    /**
     * `attemptLogin`, with its coroutine run to the end: a blank username
     * sets the refusal and returns at once; otherwise the loading flag goes
     * up, the error is cleared, the username is saved, the callback runs, a
     * throw leaves its message, and `finally` lowers the flag.
     */
    method AttemptLogin(prefs: UserPreferences, fault: LoginFault) returns (callbackRan: bool)
      requires Valid()
      modifies this, prefs
      ensures Valid()
      ensures var r := AttemptResult(old(username), fault);
        && loginError == r.error
        && callbackRan == r.callbackRan
        && prefs.loggedInUsername == (if r.saved then Some(old(username)) else old(prefs.loggedInUsername))
      ensures username == old(username) && password == old(password)
      ensures isLoading == (if IsBlank(old(username)) then old(isLoading) else false)
    {
      var currentUsername := username;
      callbackRan := false;
      if IsBlank(currentUsername) {
        loginError := Some(EmptyUsernameMessage);
        return;
      }
      isLoading := true;
      loginError := None;
      match fault {
        case SaveThrows(e) =>
          loginError := Some(LoginFailedPrefix + MessageText(e));
        case CallbackThrows(e) =>
          prefs.SaveLogin(currentUsername);
          callbackRan := true;
          loginError := Some(LoginFailedPrefix + MessageText(e));
        case NoFault =>
          prefs.SaveLogin(currentUsername);
          callbackRan := true;
      }
      isLoading := false;
    }

    method ConsumeLoginError()
      requires Valid()
      modifies this`loginError
      ensures Valid()
      ensures loginError == None
    {
      loginError := None;
    }
  }
}

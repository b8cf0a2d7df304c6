/**
 * The user's preferences store, whose own code is not part of this model:
 * all that is kept is the logged-in username, which may be absent.
 */
module Preferences {
  import opened Wrappers

  class UserPreferences {
    var loggedInUsername: Option<string>

    constructor (stored: Option<string>)
      ensures loggedInUsername == stored
    {
      loggedInUsername := stored;
    }

    /** `saveLogin`: the username is now the logged-in one. */
    method SaveLogin(username: string)
      modifies this
      ensures loggedInUsername == Some(username)
    {
      loggedInUsername := Some(username);
    }

    /** `getLoggedInUsername`. */
    function GetLoggedInUsername(): Option<string>
      reads this
    {
      loggedInUsername
    }
  }
}

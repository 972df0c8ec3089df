/**
 * The `login` handler of the login page: a loading flag and an error
 * message of its own, and, on success, the parent's token and the stored
 * token.
 */
module Login {
  import opened JsValues
  import opened AppState

  /** The request body sent to the login endpoint. */
  datatype Credentials = Credentials(username: string, password: string)

  /** The decoded login response; absent or falsy fields are None or "". */
  datatype LoginReply = LoginReply(token: Option<string>, message: Option<string>)

  const LoginFailed := "Login failed"

  /** The error shown after a failed attempt: the service's message, or a
      generic one when the message is missing or empty. */
  function FailureMessage(message: Option<string>): (r: string)
    ensures r != ""
    ensures Truthy(message) ==> r == message.value
    ensures !Truthy(message) ==> r == LoginFailed
  {
    Or(message, LoginFailed)
  }

  class LoginForm {
    var authError: string
    var authLoading: bool
    /** The parent component, through its `setToken` setter. */
    const app: App

    /** The page writes the token to the same browser storage the parent
        reads it from and clears it in. */
    constructor (app: App)
      ensures this.app == app
      ensures authError == "" && !authLoading
    {
      this.app := app;
      authError := "";
      authLoading := false;
    }

    /** The part of `login` before the request: show progress, clear the error. */
    method Begin(username: string, password: string) returns (call: Credentials)
      modifies this`authLoading, this`authError
      ensures authLoading && authError == ""
      ensures call == Credentials(username, password)
    {
      authLoading := true;
      authError := "";
      call := Credentials(username, password);
    }

    /** The part of `login` after the response: stop loading, then either
        take and persist the token or report the failure. */
    method Complete(reply: LoginReply)
      modifies this`authLoading, this`authError, app`token, app.storage
      ensures !authLoading
      ensures Truthy(reply.token) ==>
                app.token == reply.token.value && app.storage.token == reply.token &&
                authError == old(authError)
      ensures !Truthy(reply.token) ==>
                authError == FailureMessage(reply.message) &&
                app.token == old(app.token) && app.storage.token == old(app.storage.token)
    {
      authLoading := false;
      if Truthy(reply.token) {
        app.SetToken(reply.token.value);
        app.storage.SetItem(reply.token.value);
      } else {
        authError := FailureMessage(reply.message);
      }
    }

    /** A whole `login` call: on success the error stays cleared, on failure
        it is never empty; the token changes only on success. */
    method Submit(username: string, password: string, reply: LoginReply) returns (call: Credentials)
      modifies this`authLoading, this`authError, app`token, app.storage
      ensures call == Credentials(username, password)
      ensures !authLoading
      ensures Truthy(reply.token) ==>
                app.token == reply.token.value && app.storage.token == reply.token && authError == ""
      ensures !Truthy(reply.token) ==>
                authError != "" && authError == FailureMessage(reply.message) &&
                app.token == old(app.token) && app.storage.token == old(app.storage.token)
    {
      call := Begin(username, password);
      Complete(reply);
    }
  }
}

/** src/context/AuthContext.tsx: the session store. `login` writes the
    session twice (loading first, then the outcome); `completeCheckIn` and
    `logout` overwrite fields. The backend login call is an input: its
    module (`../api/authApi`) is not part of this model, and its outcome is
    taken in the shape `loginUser` of src/api/authService.ts returns. */
module AuthContext {
  import opened Common
  import opened Types
  import opened AuthService

  const InvalidCodeMessage: string := "Invalid reservation code"
  const LoginErrorMessage: string := "An error occurred during login"

  /** What `login` resolves to. */
  datatype LoginResult = LoginResult(success: bool, message: Option<string>)

  function InitialAuthState(): AuthState
  {
    AuthState(None, false, false, false, None)
  }

  /** The first write of `login`: loading on, error cleared, rest kept. */
  function LoginStarted(s: AuthState): (r: AuthState)
    ensures r.loading && r.error.None?
    ensures r.user == s.user && r.isLoggedIn == s.isLoggedIn && r.isCheckedIn == s.isCheckedIn
  {
    s.(loading := true, error := None)
  }

  /** The second write of `login` and what it returns, by outcome. */
  function LoginSettled(s: AuthState, reply: ApiOutcome<LoginResponse>): (r: (AuthState, LoginResult))
    // success with data: a fresh session for the user in the response
    ensures SucceededWithData(reply) ==>
              var data := reply.value.data.value;
              r.0 == AuthState(Some(data.user), true, data.checkedIn == Some(true), false, None)
              && r.1 == LoginResult(true, None)
    // envelope failure: error is the message or the fallback; the raw message is returned
    ensures reply.Resolved? && !SucceededWithData(reply) ==>
              r.0 == s.(loading := false, error := Some(OrElse(reply.value.message, InvalidCodeMessage)))
              && r.1 == LoginResult(false, reply.value.message)
    // a throw: stored and returned message agree
    ensures reply.Rejected? ==>
              r.0 == s.(loading := false, error := Some(MessageOr(reply.err, LoginErrorMessage)))
              && r.1 == LoginResult(false, Some(MessageOr(reply.err, LoginErrorMessage)))
  {
    match reply
    case Resolved(response) =>
      if response.success && response.data.Some? then
        (AuthState(Some(response.data.value.user), true, response.data.value.checkedIn == Some(true), false, None),
         LoginResult(true, None))
      else
        (s.(loading := false, error := Some(OrElse(response.message, InvalidCodeMessage))),
         LoginResult(false, response.message))
    case Rejected(e) =>
      var message := MessageOr(e, LoginErrorMessage);
      (s.(loading := false, error := Some(message)), LoginResult(false, Some(message)))
  }

  function AfterLogin(s: AuthState, reply: ApiOutcome<LoginResponse>): (AuthState, LoginResult)
  {
    LoginSettled(LoginStarted(s), reply)
  }

  /** A failed login (either kind) keeps who is logged in, reports failure,
      leaves an error behind and stops loading; from a logged-out session
      it stays logged out. */
  lemma FailedLoginKeepsSession(s: AuthState, reply: ApiOutcome<LoginResponse>)
    requires !SucceededWithData(reply)
    ensures var (t, result) := AfterLogin(s, reply);
      !result.success && t.error.Some? && !t.loading
      && t.user == s.user && t.isLoggedIn == s.isLoggedIn && t.isCheckedIn == s.isCheckedIn
  {
  }

  /** A successful login does not depend on the session it started from, so
      logout followed by login reaches the state a fresh login reaches. */
  lemma SuccessfulLoginForgetsPast(s1: AuthState, s2: AuthState, reply: ApiOutcome<LoginResponse>)
    requires SucceededWithData(reply)
    ensures AfterLogin(s1, reply) == AfterLogin(s2, reply)
    ensures AfterLogin(s1, reply).0.isLoggedIn && AfterLogin(s1, reply).0.error.None?
  {
  }

  /** `AuthProvider`: the session every page reads. */
  class AuthProvider {
    var user: Option<User>
    var isLoggedIn: bool
    var isCheckedIn: bool
    var loading: bool
    var error: Option<string>

    function Session(): AuthState
      reads this
    {
      AuthState(user, isLoggedIn, isCheckedIn, loading, error)
    }

    constructor ()
      ensures Session() == InitialAuthState()
    {
      user, isLoggedIn, isCheckedIn, loading, error := None, false, false, false, None;
    }

    method BeginLogin()
      modifies this
      ensures Session() == LoginStarted(old(Session()))
    {
      loading, error := true, None;
    }

    method FinishLogin(reply: ApiOutcome<LoginResponse>) returns (result: LoginResult)
      modifies this
      ensures (Session(), result) == LoginSettled(old(Session()), reply)
    {
      match reply
      case Resolved(response) =>
        if response.success && response.data.Some? {
          var data := response.data.value;
          user, isLoggedIn, isCheckedIn, loading, error := Some(data.user), true, data.checkedIn == Some(true), false, None;
          result := LoginResult(true, None);
        } else {
          loading, error := false, Some(OrElse(response.message, InvalidCodeMessage));
          result := LoginResult(false, response.message);
        }
      case Rejected(e) =>
        var message := MessageOr(e, LoginErrorMessage);
        loading, error := false, Some(message);
        result := LoginResult(false, Some(message));
    }

    /** `login(reservationCode)` once the backend call has settled to `reply`. */
    method Login(reply: ApiOutcome<LoginResponse>) returns (result: LoginResult)
      modifies this
      ensures (Session(), result) == AfterLogin(old(Session()), reply)
    {
      BeginLogin();
      result := FinishLogin(reply);
    }

    /** Only `isCheckedIn` changes; repeating it changes nothing more. */
    method CompleteCheckIn()
      modifies this
      ensures isCheckedIn
      ensures Session() == old(Session()).(isCheckedIn := true)
    {
      isCheckedIn := true;
    }

    /** Restores exactly the initial session, whatever it was; so it is
        idempotent. The stored token is outside its frame. */
    method Logout()
      modifies this
      ensures Session() == InitialAuthState()
    {
      user, isLoggedIn, isCheckedIn, loading, error := None, false, false, false, None;
    }
  }
}

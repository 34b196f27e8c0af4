/**
 * The session: the token and user kept in browser storage, the in-memory user, error
 * and loading flag, and the operations that change them (the 401 interceptor, the
 * initial check, login and logout). Each request's outcome is a parameter; what the
 * storage holds for `user` is the user record itself, its JSON text is not modelled.
 */
module AuthContext {
  import opened Wrappers
  import opened Js
  import Api

  const LOGIN_PATH := "/login"
  const DEFAULT_LOGIN_ERROR := "Invalid username or password"

  datatype User = User(
    id: int,
    username: string,
    email: Option<string>,
    firstName: Option<string>,
    lastName: Option<string>,
    role: string,
    isActive: bool)

  /** A failed request: the HTTP status when the server answered, and its `message` field. */
  datatype Failure = Failure(status: Option<int>, message: Option<string>)

  datatype Reply<T> = Ok(value: T) | Fail(failure: Failure)

  /** The message a failed login shows and throws. */
  function LoginErrorMessage(f: Failure): (m: string)
    ensures StrTruthy(f.message) ==> m == f.message.value
    ensures !StrTruthy(f.message) ==> m == DEFAULT_LOGIN_ERROR
    ensures m != ""
  {
    if StrTruthy(f.message) then f.message.value else DEFAULT_LOGIN_ERROR
  }

  class Session {
    var storedToken: Option<string>
    var storedUser: Option<User>
    /** The page the browser was sent to with `window.location.href`, if any. */
    var location: Option<string>
    var user: Option<User>
    var isLoading: bool
    var error: Option<string>

    /** An error, when there is one, is never blank. */
    predicate Valid()
      reads this
    {
      error.None? || error.value != ""
    }

    /** A fresh page with whatever the storage holds. */
    constructor (storedToken: Option<string>, storedUser: Option<User>)
      ensures this.storedToken == storedToken && this.storedUser == storedUser
      ensures location.None? && user.None? && !isLoading && error.None?
      ensures Valid()
    {
      this.storedToken := storedToken;
      this.storedUser := storedUser;
      location := None;
      user := None;
      isLoading := false;
      error := None;
    }

    /** `isAuthenticated: !!user`: signed in exactly when a user is loaded. */
    predicate IsAuthenticated(): (b: bool)
      reads this
      ensures b <==> user.Some?
    {
      user.Some?
    }

    /** `getAuthHeader`: the `Authorization` value, or none (`{}`) without a token. */
    function AuthHeader(): (h: Option<string>)
      reads this
      ensures h.Some? <==> StrTruthy(storedToken)
      ensures h.Some? ==> h.value == Api.BearerHeader(storedToken)
    {
      if StrTruthy(storedToken) then Some("Bearer " + storedToken.value) else None
    }

    /** The response interceptor seeing a failure: a 401 wipes the storage and goes to the login page. */
    method Intercept(f: Failure)
      modifies this
      ensures f.status == Some(401) ==> storedToken.None? && storedUser.None? && location == Some(LOGIN_PATH)
      ensures f.status != Some(401) ==>
        storedToken == old(storedToken) && storedUser == old(storedUser) && location == old(location)
      ensures user == old(user) && isLoading == old(isLoading) && error == old(error)
    {
      if f.status == Some(401) {
        storedToken := None;
        storedUser := None;
        location := Some(LOGIN_PATH);
      }
    }

    /**
     * `fetchCurrentUser`: no request without a token; a failed request (after the
     * interceptor) clears the stored credentials.
     */
    method FetchCurrentUser(reply: Reply<User>) returns (requested: bool, u: Option<User>)
      modifies this
      ensures requested <==> StrTruthy(old(storedToken))
      ensures !requested ==> (u.None? && storedToken == old(storedToken) && storedUser == old(storedUser)
        && location == old(location))
      ensures requested && reply.Ok? ==> (u == Some(reply.value)
        && storedToken == old(storedToken) && storedUser == old(storedUser) && location == old(location))
      ensures requested && reply.Fail? ==> (u.None? && storedToken.None? && storedUser.None?
        && location == (if reply.failure.status == Some(401) then Some(LOGIN_PATH) else old(location)))
      ensures user == old(user) && isLoading == old(isLoading) && error == old(error)
    {
      if !(storedToken.Some? && storedToken.value != "") {
        return false, None;
      }
      requested := true;
      match reply
      case Ok(data) =>
        u := Some(data);
      case Fail(f) =>
        Intercept(f);
        storedToken := None;
        storedUser := None;
        u := None;
    }

    /** `checkAuth` on mount: the user is loaded when the stored token still works. */
    method CheckAuth(reply: Reply<User>) returns (requested: bool)
      modifies this
      requires Valid()
      ensures Valid() && !isLoading
      ensures requested <==> StrTruthy(old(storedToken))
      ensures requested && reply.Ok? ==> user == Some(reply.value)
      ensures !(requested && reply.Ok?) ==> user == old(user)
      ensures requested && reply.Fail? ==> storedToken.None? && storedUser.None?
      ensures !(requested && reply.Fail?) ==> storedToken == old(storedToken) && storedUser == old(storedUser)
      ensures location == (if requested && reply.Fail? && reply.failure.status == Some(401)
                           then Some(LOGIN_PATH) else old(location))
      ensures error == old(error)
    {
      isLoading := true;
      var u;
      requested, u := FetchCurrentUser(reply);
      if u.Some? {
        user := u;
      }
      isLoading := false;
    }

    /**
     * `login`: on success the token and user are stored and the user is signed in; on
     * failure the error is set to the server's message or the default one, and that
     * message is thrown. Either way the page stops loading.
     */
    method Login(reply: Reply<(User, string)>) returns (thrown: Option<string>)
      modifies this
      requires Valid()
      ensures Valid() && !isLoading
      ensures reply.Ok? ==> (thrown.None? && error.None? && user == Some(reply.value.0)
        && storedToken == Some(reply.value.1) && storedUser == Some(reply.value.0) && location == old(location))
      ensures reply.Fail? ==> (thrown == Some(LoginErrorMessage(reply.failure)) && error == thrown
        && user == old(user))
      ensures reply.Fail? && reply.failure.status == Some(401) ==>
        storedToken.None? && storedUser.None? && location == Some(LOGIN_PATH)
      ensures reply.Fail? && reply.failure.status != Some(401) ==>
        storedToken == old(storedToken) && storedUser == old(storedUser) && location == old(location)
    {
      isLoading := true;
      error := None;
      match reply {
        case Ok((u, token)) =>
          storedToken := Some(token);
          storedUser := Some(u);
          user := Some(u);
          thrown := None;
        case Fail(f) =>
          Intercept(f);
          var message := if f.message.Some? && f.message.value != "" then f.message.value else DEFAULT_LOGIN_ERROR;
          error := Some(message);
          thrown := Some(message);
      }
      isLoading := false;
    }

    /**
     * `logout`: the server is told only when a token is stored; whatever it answers the
     * user is signed out and the storage wiped.
     */
    method Logout(failure: Option<Failure>) returns (requested: bool)
      modifies this
      ensures requested <==> StrTruthy(old(storedToken))
      ensures user.None? && storedToken.None? && storedUser.None? && !IsAuthenticated()
      ensures location == (if requested && failure.Some? && failure.value.status == Some(401)
                           then Some(LOGIN_PATH) else old(location))
      ensures isLoading == old(isLoading) && error == old(error)
    {
      requested := storedToken.Some? && storedToken.value != "";
      if requested && failure.Some? {
        Intercept(failure.value);
      }
      user := None;
      storedToken := None;
      storedUser := None;
    }
  }
}

/** The renderer's auth store (src/stores/auth.js). The state is one Store
    object. What the Electron auth handlers answer is a parameter of each
    action, and the calls the store makes into secure storage are appended
    to `calls`, so that what it asked for, and when, can be stated. */
module Auth {
  import opened Wrappers
  import opened Text
  import RecordingsHistory

  /** The user object the backend returns; only the ids are read. */
  datatype UserInfo = UserInfo(id: Option<string>, userId: Option<string>)

  /** What auth:login or auth:register answers. */
  datatype SignInReply = Accepted(user: UserInfo, token: string) | Rejected(error: Option<string>) | SignInThrew(message: Option<string>)

  /** How saving the session went: saveToken or saveUserInfo may throw. */
  datatype SaveOutcome = Saved | TokenSaveThrew(message: Option<string>) | UserSaveThrew(message: Option<string>)

  /** A call into the Electron auth API, with, for the sign-in request, the
      value of `loading` at the moment it was made. */
  datatype AuthCall = SignInRequest(loading: bool) | SaveToken(token: string) | SaveUserInfo(user: UserInfo) | ClearToken

  datatype AuthResult = AuthResult(success: bool, error: Option<string>)

  datatype AuthState = AuthState(
    user: Option<UserInfo>, token: Option<string>, isAuthenticated: bool, loading: bool,
    error: Option<string>, calls: seq<AuthCall>)

  const Unexpected := "An unexpected error occurred"

  /** The store after a sign-in with this reply and these saves: the
      session fields are set as soon as the backend accepts, even where a
      save then throws. */
  function AfterSignIn(s: AuthState, reply: SignInReply, saves: SaveOutcome, refused: string): (t: AuthState)
    ensures !t.loading
    ensures reply.Accepted? ==> t.user == Some(reply.user) && t.token == Some(reply.token) && t.isAuthenticated
    ensures !reply.Accepted? ==> t.(error := s.error, loading := s.loading, calls := s.calls) == s
    ensures t.error.None? <==> reply.Accepted? && saves.Saved?
    ensures reply.Rejected? ==> t.error == Some(StringOr(reply.error, refused))
    ensures reply.SignInThrew? ==> t.error == Some(StringOr(reply.message, Unexpected))
  {
    var calls := s.calls + [SignInRequest(true)];
    match reply
    case Rejected(error) => s.(loading := false, error := Some(StringOr(error, refused)), calls := calls)
    case SignInThrew(message) => s.(loading := false, error := Some(StringOr(message, Unexpected)), calls := calls)
    case Accepted(user, token) =>
      var signedIn := s.(user := Some(user), token := Some(token), isAuthenticated := true, loading := false);
      match saves
      case Saved => signedIn.(error := None, calls := calls + [SaveToken(token), SaveUserInfo(user)])
      case TokenSaveThrew(message) => signedIn.(error := Some(StringOr(message, Unexpected)), calls := calls + [SaveToken(token)])
      case UserSaveThrew(message) =>
        signedIn.(error := Some(StringOr(message, Unexpected)), calls := calls + [SaveToken(token), SaveUserInfo(user)])
  }

  /** The store after checkSession. `token` and `userInfo` are what getToken
      and getUserInfo return, None where the call threw; getUserInfo is
      only reached when getToken answered. */
  function AfterCheck(s: AuthState, token: Option<Option<string>>, userInfo: Option<Option<UserInfo>>): (t: AuthState)
    ensures token.None? || (token.value.Some? && token.value.value != "" && userInfo.None?) ==> t == s.(isAuthenticated := false)
  {
    if token.None? then s.(isAuthenticated := false)
    else if userInfo.None? then s.(isAuthenticated := false)
    else
      var tok, info := token.value, userInfo.value;
      if tok.Some? && tok.value != "" && info.Some? then s.(token := tok, user := info, isAuthenticated := true)
      else if tok.Some? && tok.value != "" then s.(isAuthenticated := false, calls := s.calls + [ClearToken])
      else s
  }

  /** The three cases of checkSession. */
  lemma CheckSessionCases(s: AuthState, t: string, u: UserInfo)
    requires t != ""
    ensures AfterCheck(s, Some(Some(t)), Some(Some(u))) == s.(token := Some(t), user := Some(u), isAuthenticated := true)
    ensures var c := AfterCheck(s, Some(Some(t)), Some(None)); !c.isAuthenticated && c.calls == s.calls + [ClearToken]
    ensures AfterCheck(s, Some(None), Some(None)) == s
    ensures AfterCheck(s, Some(Some("")), Some(None)) == s
  {
  }

  /** The session fields agree: a signed-in store has a user and a token. */
  predicate Consistent(s: AuthState)
  {
    s.isAuthenticated ==> s.user.Some? && s.token.Some?
  }

  /** Every action keeps the session fields consistent. */
  lemma ActionsKeepConsistent(s: AuthState, reply: SignInReply, saves: SaveOutcome, refused: string,
                              token: Option<Option<string>>, userInfo: Option<Option<UserInfo>>)
    requires Consistent(s)
    ensures Consistent(AfterSignIn(s, reply, saves, refused))
    ensures Consistent(AfterCheck(s, token, userInfo))
  {
  }

  /** A failed sign-in leaves an earlier session as it was. */
  lemma FailedSignInKeepsSession(s: AuthState, reply: SignInReply, saves: SaveOutcome, refused: string)
    requires !reply.Accepted?
    ensures var t := AfterSignIn(s, reply, saves, refused);
      t.isAuthenticated == s.isAuthenticated && t.user == s.user && t.token == s.token && t.error.Some?
  {
  }

  class Store {
    var user: Option<UserInfo>
    var token: Option<string>
    var isAuthenticated: bool
    var loading: bool
    var error: Option<string>
    var calls: seq<AuthCall>

    function State(): AuthState
      reads this
    {
      AuthState(user, token, isAuthenticated, loading, error, calls)
    }

    constructor ()
      ensures State() == AuthState(None, None, false, false, None, [])
    {
      user, token, isAuthenticated, loading, error, calls := None, None, false, false, None, [];
    }

    /** The body shared by login and register; `refused` is the message
        for a refusal without one. */
    method SignIn(reply: SignInReply, saves: SaveOutcome, refused: string) returns (r: AuthResult)
      modifies this
      ensures State() == AfterSignIn(old(State()), reply, saves, refused)
      ensures r == AuthResult(error.None?, error)
      ensures r.success ==> isAuthenticated
    {
      loading := true;
      error := None;
      calls := calls + [SignInRequest(loading)];
      match reply {
        case Accepted(u, t) =>
          user := Some(u);
          token := Some(t);
          isAuthenticated := true;
          calls := calls + [SaveToken(t)];
          if saves.TokenSaveThrew? {
            error := Some(StringOr(saves.message, Unexpected));
          } else {
            calls := calls + [SaveUserInfo(u)];
            if saves.UserSaveThrew? {
              error := Some(StringOr(saves.message, Unexpected));
            }
          }
        case Rejected(e) =>
          error := Some(StringOr(e, refused));
        case SignInThrew(m) =>
          error := Some(StringOr(m, Unexpected));
      }
      loading := false;
      r := AuthResult(error.None?, error);
    }

    method Login(reply: SignInReply, saves: SaveOutcome) returns (r: AuthResult)
      modifies this
      ensures State() == AfterSignIn(old(State()), reply, saves, "Login failed")
      ensures r == AuthResult(error.None?, error)
    {
      r := SignIn(reply, saves, "Login failed");
    }

    method Register(reply: SignInReply, saves: SaveOutcome) returns (r: AuthResult)
      modifies this
      ensures State() == AfterSignIn(old(State()), reply, saves, "Registration failed")
      ensures r == AuthResult(error.None?, error)
    {
      r := SignIn(reply, saves, "Registration failed");
    }

    /** logout: clearToken is asked for and its failure ignored; the history
        store is reset and the session cleared. */
    method Logout(history: RecordingsHistory.Store, clearTokenThrows: bool)
      modifies this, history
      ensures State() == old(State()).(user := None, token := None, isAuthenticated := false, error := None,
        calls := old(calls) + [ClearToken])
      ensures history.State() == old(history.State()).(recordings := [], loaded := false, loading := false)
    {
      calls := calls + [ClearToken];
      history.Reset();
      user := None;
      token := None;
      isAuthenticated := false;
      error := None;
    }

    method CheckSession(tokenReply: Option<Option<string>>, userInfoReply: Option<Option<UserInfo>>)
      modifies this
      ensures State() == AfterCheck(old(State()), tokenReply, userInfoReply)
    {
      if tokenReply.None? || userInfoReply.None? {
        isAuthenticated := false;
        return;
      }
      var t, info := tokenReply.value, userInfoReply.value;
      if t.Some? && t.value != "" && info.Some? {
        token := t;
        user := info;
        isAuthenticated := true;
      } else if t.Some? && t.value != "" {
        calls := calls + [ClearToken];
        isAuthenticated := false;
      }
    }

    method ClearError()
      modifies this
      ensures State() == old(State()).(error := None)
    {
      error := None;
    }

    /** The id recordings-history reads from this store. */
    function CurrentUserId(): (r: Option<string>)
      reads this
      ensures user.None? ==> r.None?
      ensures user.Some? ==> r == RecordingsHistory.GetUserId(user.value.id, user.value.userId)
    {
      if user.None? then None else RecordingsHistory.GetUserId(user.value.id, user.value.userId)
    }
  }

  /** The sign-in request goes out while `loading` is true, and `loading` is
      false again on every way out. */
  lemma LoadingAroundRequest(s: AuthState, reply: SignInReply, saves: SaveOutcome, refused: string)
    ensures var t := AfterSignIn(s, reply, saves, refused);
      !t.loading && |t.calls| > |s.calls| && t.calls[|s.calls|] == SignInRequest(true)
  {
  }
}

/**
 * AuthService (src/app/services/auth.service.ts): the bearer token kept under
 * one key of the browser's key/value storage, and the "current user" cell that
 * every subscriber reads. Each request is a send step; its success tap is an
 * explicit reply handler. Failed requests pass through the service untouched,
 * so there are no error handlers here.
 */
module Auth {
  import opened Wrappers
  import opened Models
  import opened Http

  const TokenKey := "auth_token"

  /** The two pieces of state the service owns: the whole storage and the current user. */
  datatype Session = Session(storage: map<string, string>, user: Option<User>)

  /** `localStorage.getItem('auth_token')`. */
  function StoredToken(storage: map<string, string>): (token: Option<string>)
  {
    if TokenKey in storage then Some(storage[TokenKey]) else None
  }

  /** `!!getToken()`: a token is stored and it is not the empty string. */
  predicate HasToken(storage: map<string, string>)
  {
    StoredToken(storage).Some? && StoredToken(storage).value != ""
  }

  function WithToken(storage: map<string, string>, token: string): (updated: map<string, string>)
  {
    storage[TokenKey := token]
  }

  function WithoutToken(storage: map<string, string>): (updated: map<string, string>)
  {
    storage - {TokenKey}
  }

  /** The success tap shared by login and register. */
  function AfterAuthReply(s: Session, r: AuthResponse): (next: Session)
  {
    if r.status == SuccessStatus then Session(WithToken(s.storage, r.accessToken), Some(r.user)) else s
  }

  /** The logout tap runs on any reply that is not an error, whatever its status. */
  function AfterLogoutReply(s: Session): (next: Session)
  {
    Session(WithoutToken(s.storage), None)
  }

  function AfterMeReply(s: Session, r: MeResponse): (next: Session)
  {
    if r.status == SuccessStatus then s.(user := Some(r.user)) else s
  }

  function AfterRefreshReply(s: Session, r: AuthResponse): (next: Session)
  {
    if r.status == SuccessStatus then s.(storage := WithToken(s.storage, r.accessToken)) else s
  }

  function LoginCall(credentials: LoginRequest): (call: Call)
  {
    Call(Post, ApiUrl + "/auth/login", Credentials(credentials))
  }

  function RegisterCall(account: RegisterRequest): (call: Call)
  {
    Call(Post, ApiUrl + "/auth/register", Registration(account))
  }

  function LogoutCall(): (call: Call)
  {
    Call(Post, ApiUrl + "/auth/logout", EmptyObject)
  }

  function MeCall(): (call: Call)
  {
    Call(Get, ApiUrl + "/auth/me", NoBody)
  }

  function RefreshCall(): (call: Call)
  {
    Call(Post, ApiUrl + "/auth/refresh", EmptyObject)
  }

  class AuthService {
    /** The browser's key/value storage; only the token key is ever written. */
    var storage: map<string, string>
    /** The value of `currentUserSubject`. */
    var currentUser: Option<User>
    /** The requests issued, oldest first. */
    var sent: seq<Call>

    function State(): (session: Session)
      reads this
    {
      Session(storage, currentUser)
    }

    /** Starts with no user and asks who is logged in only when a token is already stored. */
    constructor (initialStorage: map<string, string>)
      ensures storage == initialStorage && currentUser == None
      ensures sent == if HasToken(initialStorage) then [MeCall()] else []
    {
      storage := initialStorage;
      currentUser := None;
      sent := [];
      new;
      var token := GetToken();
      if token.Some? && token.value != "" {
        GetCurrentUser();
      }
    }

    method SetToken(token: string)
      modifies this
      ensures storage == WithToken(old(storage), token)
      ensures currentUser == old(currentUser) && sent == old(sent)
    {
      storage := storage[TokenKey := token];
    }

    method GetToken() returns (token: Option<string>)
      ensures token.Some? <==> TokenKey in storage
      ensures token.Some? ==> token.value == storage[TokenKey]
    {
      token := if TokenKey in storage then Some(storage[TokenKey]) else None;
    }

    method RemoveToken()
      modifies this
      ensures storage == WithoutToken(old(storage))
      ensures currentUser == old(currentUser) && sent == old(sent)
    {
      storage := storage - {TokenKey};
    }

    method IsLoggedIn() returns (loggedIn: bool)
      ensures loggedIn <==> TokenKey in storage && storage[TokenKey] != ""
    {
      var token := GetToken();
      loggedIn := token.Some? && token.value != "";
    }

    method GetCurrentUserValue() returns (user: Option<User>)
      ensures user == currentUser
    {
      user := currentUser;
    }

    method Login(credentials: LoginRequest)
      modifies this
      ensures sent == old(sent) + [LoginCall(credentials)]
      ensures State() == old(State())
    {
      sent := sent + [LoginCall(credentials)];
    }

    method OnLoginReply(r: AuthResponse)
      modifies this
      ensures State() == AfterAuthReply(old(State()), r) && sent == old(sent)
    {
      if r.status == SuccessStatus {
        SetToken(r.accessToken);
        currentUser := Some(r.user);
      }
    }

    method Register(account: RegisterRequest)
      modifies this
      ensures sent == old(sent) + [RegisterCall(account)]
      ensures State() == old(State())
    {
      sent := sent + [RegisterCall(account)];
    }

    method OnRegisterReply(r: AuthResponse)
      modifies this
      ensures State() == AfterAuthReply(old(State()), r) && sent == old(sent)
    {
      if r.status == SuccessStatus {
        SetToken(r.accessToken);
        currentUser := Some(r.user);
      }
    }

    method Logout()
      modifies this
      ensures sent == old(sent) + [LogoutCall()]
      ensures State() == old(State())
    {
      sent := sent + [LogoutCall()];
    }

    method OnLogoutReply()
      modifies this
      ensures State() == AfterLogoutReply(old(State())) && sent == old(sent)
    {
      RemoveToken();
      currentUser := None;
    }

    method GetCurrentUser()
      modifies this
      ensures sent == old(sent) + [MeCall()]
      ensures State() == old(State())
    {
      sent := sent + [MeCall()];
    }

    method OnMeReply(r: MeResponse)
      modifies this
      ensures State() == AfterMeReply(old(State()), r) && sent == old(sent)
    {
      if r.status == SuccessStatus {
        currentUser := Some(r.user);
      }
    }

    method RefreshToken()
      modifies this
      ensures sent == old(sent) + [RefreshCall()]
      ensures State() == old(State())
    {
      sent := sent + [RefreshCall()];
    }

    method OnRefreshReply(r: AuthResponse)
      modifies this
      ensures State() == AfterRefreshReply(old(State()), r) && sent == old(sent)
    {
      if r.status == SuccessStatus {
        SetToken(r.accessToken);
      }
    }
  }

  /** Writing then reading the token gives it back; removing it leaves nothing; other keys are never touched. */
  lemma TokenStorageRoundTrip(storage: map<string, string>, token: string)
    ensures StoredToken(WithToken(storage, token)) == Some(token)
    ensures StoredToken(WithoutToken(storage)) == None && !HasToken(WithoutToken(storage))
    ensures HasToken(WithToken(storage, token)) <==> token != ""
    ensures forall k :: k != TokenKey ==>
      (k in WithToken(storage, token) <==> k in storage) && (k in WithoutToken(storage) <==> k in storage)
    ensures forall k :: k != TokenKey && k in storage ==>
      WithToken(storage, token)[k] == storage[k] && WithoutToken(storage)[k] == storage[k]
  {
  }

  /** Login and register: a success stores the token and publishes the user; any other status changes nothing. */
  lemma AuthReplyEffect(s: Session, r: AuthResponse)
    ensures r.status == SuccessStatus ==>
      StoredToken(AfterAuthReply(s, r).storage) == Some(r.accessToken)
      && AfterAuthReply(s, r).user == Some(r.user)
      && (HasToken(AfterAuthReply(s, r).storage) <==> r.accessToken != "")
    ensures r.status != SuccessStatus ==> AfterAuthReply(s, r) == s
  {
  }

  /** A logout reply always leaves the client logged out with no current user. */
  lemma LogoutReplyEffect(s: Session)
    ensures !HasToken(AfterLogoutReply(s).storage)
    ensures StoredToken(AfterLogoutReply(s).storage) == None
    ensures AfterLogoutReply(s).user == None
  {
  }

  /** "Who am I" publishes the user and never touches storage; refresh replaces the token and never the user. */
  lemma MeAndRefreshEffects(s: Session, me: MeResponse, r: AuthResponse)
    ensures AfterMeReply(s, me).storage == s.storage
    ensures AfterMeReply(s, me).user == if me.status == SuccessStatus then Some(me.user) else s.user
    ensures AfterRefreshReply(s, r).user == s.user
    ensures StoredToken(AfterRefreshReply(s, r).storage)
      == if r.status == SuccessStatus then Some(r.accessToken) else StoredToken(s.storage)
  {
  }

  /** Whatever a login did, a following logout leaves storage as it would be with the token key removed. */
  lemma LoginThenLogout(s: Session, r: AuthResponse)
    ensures AfterLogoutReply(AfterAuthReply(s, r)).storage == WithoutToken(s.storage)
    ensures AfterLogoutReply(AfterAuthReply(s, r)).user == None
  {
    if r.status == SuccessStatus {
      assert WithoutToken(WithToken(s.storage, r.accessToken)) == WithoutToken(s.storage);
    }
  }

  /** Everything that can change the session, in the order it happens. */
  datatype SessionEvent =
    | LoginReply(login: AuthResponse)
    | RegisterReply(registered: AuthResponse)
    | LogoutReply
    | MeReply(me: MeResponse)
    | RefreshReply(refreshed: AuthResponse)
    | TokenSet(token: string)
    | TokenRemoved

  function Apply(s: Session, e: SessionEvent): (next: Session)
  {
    match e
    case LoginReply(r) => AfterAuthReply(s, r)
    case RegisterReply(r) => AfterAuthReply(s, r)
    case LogoutReply => AfterLogoutReply(s)
    case MeReply(r) => AfterMeReply(s, r)
    case RefreshReply(r) => AfterRefreshReply(s, r)
    case TokenSet(t) => s.(storage := WithToken(s.storage, t))
    case TokenRemoved => s.(storage := WithoutToken(s.storage))
  }

  /** The session after a history of events, the last event applied last. */
  function Replay(s: Session, events: seq<SessionEvent>): (last: Session)
    decreases |events|
  {
    if events == [] then s else Apply(Replay(s, events[..|events| - 1]), events[|events| - 1])
  }

  /** What an event pushes into the current-user cell, if it pushes anything. */
  function Published(e: SessionEvent): (pushed: Option<Option<User>>)
  {
    match e
    case LoginReply(r) => if r.status == SuccessStatus then Some(Some(r.user)) else None
    case RegisterReply(r) => if r.status == SuccessStatus then Some(Some(r.user)) else None
    case LogoutReply => Some(None)
    case MeReply(r) => if r.status == SuccessStatus then Some(Some(r.user)) else None
    case RefreshReply(_) => None
    case TokenSet(_) => None
    case TokenRemoved => None
  }

  /** What an event writes under the token key: a value, or its removal. */
  function TokenWrite(e: SessionEvent): (written: Option<Option<string>>)
  {
    match e
    case LoginReply(r) => if r.status == SuccessStatus then Some(Some(r.accessToken)) else None
    case RegisterReply(r) => if r.status == SuccessStatus then Some(Some(r.accessToken)) else None
    case LogoutReply => Some(None)
    case MeReply(_) => None
    case RefreshReply(r) => if r.status == SuccessStatus then Some(Some(r.accessToken)) else None
    case TokenSet(t) => Some(Some(t))
    case TokenRemoved => Some(None)
  }

  /** The most recent value published, found by searching back from the latest event. */
  function LastPublished(events: seq<SessionEvent>, initial: Option<User>): (user: Option<User>)
    decreases |events|
  {
    if events == [] then initial
    else match Published(events[|events| - 1])
      case Some(u) => u
      case None => LastPublished(events[..|events| - 1], initial)
  }

  /** The most recent token write, found by searching back from the latest event. */
  function LastTokenWrite(events: seq<SessionEvent>, initial: Option<string>): (token: Option<string>)
    decreases |events|
  {
    if events == [] then initial
    else match TokenWrite(events[|events| - 1])
      case Some(t) => t
      case None => LastTokenWrite(events[..|events| - 1], initial)
  }

  /** Replay-last semantics: the current user is always the value published most recently (initially none). */
  lemma {:induction false} CurrentUserIsLastPublished(s: Session, events: seq<SessionEvent>)
    ensures Replay(s, events).user == LastPublished(events, s.user)
    decreases |events|
  {
    if events != [] {
      CurrentUserIsLastPublished(s, events[..|events| - 1]);
    }
  }

  /** The stored token is always the one written most recently, and no other key ever changes. */
  lemma {:induction false} StorageIsLastTokenWrite(s: Session, events: seq<SessionEvent>)
    ensures StoredToken(Replay(s, events).storage) == LastTokenWrite(events, StoredToken(s.storage))
    ensures forall k :: k != TokenKey ==> (k in Replay(s, events).storage <==> k in s.storage)
    ensures forall k :: k != TokenKey && k in s.storage ==> Replay(s, events).storage[k] == s.storage[k]
    decreases |events|
  {
    if events != [] {
      StorageIsLastTokenWrite(s, events[..|events| - 1]);
    }
  }

  /**
   * A current user with no stored token is reachable: removing the token (what
   * the seller console does when logout fails) leaves the published user in place.
   */
  lemma UserCanOutliveToken(u: User, token: string)
    requires token != ""
    ensures HasToken(Replay(Session(map[], None), [TokenSet(token), MeReply(MeResponse(SuccessStatus, u))]).storage)
    ensures var s := Replay(Session(map[], None),
                            [TokenSet(token), MeReply(MeResponse(SuccessStatus, u)), TokenRemoved]);
      s.user == Some(u) && !HasToken(s.storage)
  {
    var e := [TokenSet(token), MeReply(MeResponse(SuccessStatus, u)), TokenRemoved];
    assert e[..2][..1] == [TokenSet(token)];
    assert e[..2] == [TokenSet(token), MeReply(MeResponse(SuccessStatus, u))];
  }
}

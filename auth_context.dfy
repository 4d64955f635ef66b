/**
 * The session store: who is signed in, whether the startup check is still
 * running, whether it has completed, and the bearer token kept in the
 * browser's storage under `access_token`.
 */
module AuthContext {
  import opened Js
  import opened Http

  datatype User = User(id: string, email: string, role: string)

  /**
   * The `user` state. It starts as `null`; it is `undefined` when a login or
   * signup body carried no `user` field, since `setUser(data.user)` stores
   * whatever that field holds.
   */
  datatype UserSlot = Null | Undefined | Present(user: User)

  /** The body of a successful login or signup response; both fields may be missing. */
  datatype LoginBody = LoginBody(accessToken: Option<string>, user: Option<User>)

  /** The requests the store sends. */
  datatype AuthCall =
    | GetUser(bearer: string)                     // GET /api/user with `Authorization: Bearer <token>`
    | PostLogin(email: string, password: string)  // POST /api/login
    | PostSignup(email: string, password: string) // POST /api/signup
    | PostLogout                                  // POST /api/logout

  datatype Session = Session(
    user: UserSlot,
    isLoading: bool,
    hasCheckedAuth: bool,
    token: Option<string>,   // localStorage['access_token']
    calls: seq<AuthCall>)    // every request sent so far, oldest first

  /** `!token`: a missing or empty stored token counts as no token. */
  predicate HasToken(token: Option<string>)
  {
    token.Some? && Truthy(token.value)
  }

  /** `localStorage.setItem` stores the string form of its argument, so a missing token becomes "undefined". */
  function StoredToken(accessToken: Option<string>): (t: string)
    ensures accessToken.Some? ==> t == accessToken.value
    ensures accessToken.None? ==> t == "undefined"
  {
    accessToken.GetOr("undefined")
  }

  /** The user a successful login body installs. */
  function UserFromBody(body: LoginBody): (u: UserSlot)
    ensures u != Null
    ensures u.Present? <==> body.user.Some?
  {
    match body.user
    case Some(v) => Present(v)
    case None => Undefined
  }

  /** The state when the provider mounts, before its first check runs. */
  function Initial(stored: Option<string>): (s: Session)
    ensures s.user == Null && s.isLoading && !s.hasCheckedAuth
    ensures s.token == stored && s.calls == []
  {
    Session(Null, true, false, stored, [])
  }

  /** The request a check sends, if any. */
  function CheckRequests(s: Session, seenChecked: bool, readFails: bool): (r: seq<AuthCall>)
    ensures |r| <= 1
    ensures |r| == 1 <==> !seenChecked && !readFails && HasToken(s.token)
    ensures |r| == 1 ==> r[0] == GetUser(s.token.value)
  {
    if !seenChecked && !readFails && HasToken(s.token) then [GetUser(s.token.value)] else []
  }

  /**
   * `checkAuth` as seen by a closure whose render captured `hasCheckedAuth`
   * as `seenChecked`. `readFails` stands for `localStorage.getItem` throwing,
   * the one way into the outer `catch`; `o` is the outcome of GET /api/user.
   */
  function CheckAuthStep(s: Session, seenChecked: bool, readFails: bool, o: Outcome<User>): (r: Session)
    // every path ends with the spinner off
    ensures !r.isLoading
    // an earlier completed check: only the loading flag changes
    ensures seenChecked ==> r == s.(isLoading := false)
    // every other path marks the check as done
    ensures !seenChecked ==> r.hasCheckedAuth
    // the only request is the one GET, sent only when a token is stored
    ensures r.calls == s.calls + CheckRequests(s, seenChecked, readFails)
    // only a 401 deletes the token, and nothing else changes it
    ensures r.token == s.token || r.token == None
    ensures r.token != s.token <==> !seenChecked && !readFails && HasToken(s.token) && o == Status(401)
    // a user is signed in exactly when the server returned one
    ensures !seenChecked ==> (r.user.Present? <==> !readFails && HasToken(s.token) && o.Ok?)
    ensures !seenChecked && !readFails && HasToken(s.token) && o.Ok? ==> r.user == Present(o.payload)
    ensures !seenChecked && !r.user.Present? ==> r.user == Null
  {
    if seenChecked then s.(isLoading := false)
    else if readFails then s.(user := Null, hasCheckedAuth := true, isLoading := false)
    else if !HasToken(s.token) then s.(user := Null, isLoading := false, hasCheckedAuth := true)
    else
      var sent := s.(isLoading := true, calls := s.calls + [GetUser(s.token.value)]);
      match o
      case Ok(u) => sent.(user := Present(u), hasCheckedAuth := true, isLoading := false)
      case Status(code) =>
        if code == 401 then sent.(token := None, user := Null, hasCheckedAuth := true, isLoading := false)
        else sent.(user := Null, hasCheckedAuth := true, isLoading := false)
      case _ => sent.(user := Null, hasCheckedAuth := true, isLoading := false)
  }

  /** `login` or `signup`, sending `call` and receiving `o`. */
  function SignInStep(s: Session, call: AuthCall, o: Outcome<LoginBody>): (r: Session)
    ensures r.calls == s.calls + [call] && r.isLoading == s.isLoading
    ensures o.Ok? ==> r.token == Some(StoredToken(o.payload.accessToken))
    ensures o.Ok? ==> r.user == UserFromBody(o.payload) && r.hasCheckedAuth
    // a rejected call, an error status or an unreadable body changes nothing but the log
    ensures !o.Ok? ==> r == s.(calls := s.calls + [call])
  {
    var sent := s.(calls := s.calls + [call]);
    match o
    case Ok(body) =>
      sent.(token := Some(StoredToken(body.accessToken)), user := UserFromBody(body), hasCheckedAuth := true)
    case _ => sent
  }

  /** `logout`: the same end state whatever the server answers. */
  function LogoutStep(s: Session): (r: Session)
    ensures r.token == None && r.user == Null && !r.hasCheckedAuth
    ensures r.isLoading == s.isLoading && r.calls == s.calls + [PostLogout]
  {
    s.(calls := s.calls + [PostLogout], token := None, user := Null, hasCheckedAuth := false)
  }

  /** `retryAuth`: clear the flags, then run the check of the SAME render, which still sees the old flag. */
  function RetryAuthStep(s: Session, readFails: bool, o: Outcome<User>): (r: Session)
    ensures !r.isLoading
  {
    CheckAuthStep(s.(hasCheckedAuth := false, isLoading := true), s.hasCheckedAuth, readFails, o)
  }

  /** After a completed check the first retry sends nothing and leaves the flag cleared. */
  lemma RetryAfterCompletedCheck(s: Session, readFails: bool, o: Outcome<User>)
    requires s.hasCheckedAuth
    ensures RetryAuthStep(s, readFails, o) == s.(hasCheckedAuth := false, isLoading := false)
    ensures RetryAuthStep(s, readFails, o).calls == s.calls
  {
  }

  /**
   * From a completed check with a stored token, two retries send exactly one
   * GET /api/user, and the second retry is the one that sends it.
   */
  lemma SecondRetryFetches(s: Session, o1: Outcome<User>, o2: Outcome<User>)
    requires s.hasCheckedAuth && HasToken(s.token)
    ensures var r1 := RetryAuthStep(s, false, o1);
            var r2 := RetryAuthStep(r1, false, o2);
            r1.calls == s.calls && r2.calls == s.calls + [GetUser(s.token.value)]
  {
    var r1 := RetryAuthStep(s, false, o1);
    RetryAfterCompletedCheck(s, false, o1);
    assert r1.token == s.token && !r1.hasCheckedAuth;
  }

  /** A check that is not skipped always replaces an `undefined` user. */
  lemma CheckNeverLeavesUndefined(s: Session, readFails: bool, o: Outcome<User>)
    ensures CheckAuthStep(s, false, readFails, o).user != Undefined
  {
  }

  /** A store without an `undefined` user keeps that property under every operation whose bodies carry a user. */
  lemma NoUndefinedUser(s: Session, seenChecked: bool, readFails: bool, o: Outcome<User>,
                        call: AuthCall, ol: Outcome<LoginBody>)
    requires s.user != Undefined
    requires ol.Ok? ==> ol.payload.user.Some?
    ensures CheckAuthStep(s, seenChecked, readFails, o).user != Undefined
    ensures RetryAuthStep(s, readFails, o).user != Undefined
    ensures SignInStep(s, call, ol).user != Undefined
    ensures LogoutStep(s).user != Undefined
  {
  }

  /** One operation of the store, with the outcome its request met. */
  datatype Op =
    | Check(seenChecked: bool, readFails: bool, o: Outcome<User>)
    | Retry(readFails: bool, o: Outcome<User>)
    | SignIn(call: AuthCall, ol: Outcome<LoginBody>)
    | SignOut

  predicate OpCarriesUser(op: Op)
  {
    op.SignIn? ==> (op.ol.Ok? ==> op.ol.payload.user.Some?)
  }

  function Apply(s: Session, op: Op): Session
  {
    match op
    case Check(seen, rf, o) => CheckAuthStep(s, seen, rf, o)
    case Retry(rf, o) => RetryAuthStep(s, rf, o)
    case SignIn(call, ol) => SignInStep(s, call, ol)
    case SignOut => LogoutStep(s)
  }

  function Run(s: Session, ops: seq<Op>): Session
    decreases |ops|
  {
    if ops == [] then s else Run(Apply(s, ops[0]), ops[1..])
  }

  lemma {:induction false} RunKeepsUser(s: Session, ops: seq<Op>)
    requires s.user != Undefined
    requires forall k :: 0 <= k < |ops| ==> OpCarriesUser(ops[k])
    ensures Run(s, ops).user != Undefined
    decreases |ops|
  {
    if ops != [] {
      var op := ops[0];
      match op {
        case Check(seen, rf, o) => NoUndefinedUser(s, seen, rf, o, PostLogout, NetworkError);
        case Retry(rf, o) => NoUndefinedUser(s, false, rf, o, PostLogout, NetworkError);
        case SignIn(call, ol) => assert OpCarriesUser(ops[0]); NoUndefinedUser(s, false, false, NetworkError, call, ol);
        case SignOut => NoUndefinedUser(s, false, false, NetworkError, PostLogout, NetworkError);
      }
      assert forall k :: 0 <= k < |ops[1..]| ==> OpCarriesUser(ops[1..][k]) by {
        forall k | 0 <= k < |ops[1..]| ensures OpCarriesUser(ops[1..][k]) {
          assert ops[1..][k] == ops[k + 1];
        }
      }
      RunKeepsUser(Apply(s, op), ops[1..]);
    }
  }

  /** The provider's state, with the browser's token store inside it. */
  class AuthProvider {
    var user: UserSlot
    var isLoading: bool
    var hasCheckedAuth: bool
    var token: Option<string>
    var calls: seq<AuthCall>

    function State(): Session
      reads this
    {
      Session(user, isLoading, hasCheckedAuth, token, calls)
    }

    /** Mounting with `stored` in the browser's storage. */
    constructor (stored: Option<string>)
      ensures State() == Initial(stored)
    {
      user, isLoading, hasCheckedAuth := Null, true, false;
      token, calls := stored, [];
    }

    /** `checkAuth` run by a closure that captured `hasCheckedAuth` as `seenChecked`. */
    method CheckAuth(seenChecked: bool, readFails: bool, o: Outcome<User>)
      modifies this
      ensures State() == CheckAuthStep(old(State()), seenChecked, readFails, o)
    {
      if seenChecked {
        isLoading := false;
        return;
      }
      if readFails {
        // outer catch, then finally
        user := Null;
        hasCheckedAuth := true;
        isLoading := false;
        return;
      }
      if !HasToken(token) {
        user := Null;
        isLoading := false;
        hasCheckedAuth := true;
        isLoading := false;  // finally
        return;
      }
      isLoading := true;
      calls := calls + [GetUser(token.value)];
      match o {
        case Ok(u) =>
          user := Present(u);
          hasCheckedAuth := true;
        case Status(code) =>
          if code == 401 {
            token := None;
            user := Null;
            hasCheckedAuth := true;
          } else {
            user := Null;
            hasCheckedAuth := true;
          }
        case _ =>
          // AbortError after 15 s, an unreadable body or a network error
          user := Null;
          hasCheckedAuth := true;
      }
      isLoading := false;  // finally
    }

    /** The check the provider runs once on mount, from the first render. */
    method Mount(readFails: bool, o: Outcome<User>)
      modifies this
      ensures State() == CheckAuthStep(old(State()), old(hasCheckedAuth), readFails, o)
    {
      CheckAuth(hasCheckedAuth, readFails, o);
    }

    method Login(email: string, password: string, o: Outcome<LoginBody>)
      modifies this
      ensures State() == SignInStep(old(State()), PostLogin(email, password), o)
    {
      calls := calls + [PostLogin(email, password)];
      if o.Ok? {
        token := Some(StoredToken(o.payload.accessToken));
        user := UserFromBody(o.payload);
        hasCheckedAuth := true;
      }
    }

    method Signup(email: string, password: string, o: Outcome<LoginBody>)
      modifies this
      ensures State() == SignInStep(old(State()), PostSignup(email, password), o)
    {
      calls := calls + [PostSignup(email, password)];
      if o.Ok? {
        token := Some(StoredToken(o.payload.accessToken));
        user := UserFromBody(o.payload);
        hasCheckedAuth := true;
      }
    }

    /** `logout`, whatever the outcome `o` of POST /api/logout. */
    method Logout(o: Outcome<()>)
      modifies this
      ensures State() == LogoutStep(old(State()))
    {
      calls := calls + [PostLogout];
      if o.Responded() {
        token := None;
        user := Null;
        hasCheckedAuth := false;
      } else {
        // catch: still clear the session
        token := None;
        user := Null;
        hasCheckedAuth := false;
      }
    }

    method RetryAuth(readFails: bool, o: Outcome<User>)
      modifies this
      ensures State() == RetryAuthStep(old(State()), readFails, o)
    {
      var seen := hasCheckedAuth;  // the value this render's checkAuth closes over
      hasCheckedAuth := false;
      isLoading := true;
      CheckAuth(seen, readFails, o);
    }
  }
}

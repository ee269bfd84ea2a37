/** The login handler and the token check of server/routes/auth.js.  Token signing and
    verification are cryptography outside this model: the check receives the verifier as
    a function from token text to the user id it carries, if any. */
module Auth {
  import opened Wrappers
  import opened Text
  import opened Models

  datatype LoginRequest = LoginRequest(googleId: Option<string>, email: Option<string>, name: Option<string>, picture: Option<string>)

  /** The user fields the login answers with. */
  datatype LoginUser = LoginUser(id: UserId, name: string, email: string, profilePicture: string,
                                 isProfileComplete: bool, role: Role)

  /** What the signed token carries. */
  datatype Claims = Claims(userId: UserId, email: string)

  datatype LoginReply = LoginReply(claims: Claims, user: LoginUser)

  function LoginView(u: User): LoginUser {
    LoginUser(u.id, u.name, u.email, u.profilePicture, u.isProfileComplete, u.role)
  }

  /** POST /google.  The Google id, email and name must be present and non-empty (400).  A
      user with that Google id is signed in as stored; otherwise a new user is created with
      `newId` and the picture or "" (a taken email makes the save fail: 500). */
  function Login(st: Store, req: LoginRequest, newId: UserId): (r: Reply<LoginReply>)
    requires FindUser(st.users, newId).None?
    ensures r.res.Err? ==> r.st == st
    ensures !Truthy(req.googleId) || !Truthy(req.email) || !Truthy(req.name) ==> r.res == Err(BadRequest)
    ensures r.res.Ok? ==> r.res.value.claims == Claims(r.res.value.user.id, r.res.value.user.email)
    ensures r.st != st ==>
      && r.st == st.(users := st.users + [NewUser(newId, req.googleId.value, req.email.value, req.name.value,
                                                  req.picture.GetOr(""))])
      && r.res.Ok? && r.res.value.user.id == newId
  {
    if !Truthy(req.googleId) || !Truthy(req.email) || !Truthy(req.name) then Reply(st, Err(BadRequest))
    else match FindUserByGoogleId(st.users, req.googleId.value)
      case Some(k) =>
        var u := st.users[k];
        Reply(st, Ok(LoginReply(Claims(u.id, u.email), LoginView(u))))
      case None =>
        if FindUserByEmail(st.users, req.email.value).Some? then Reply(st, Err(ServerError))
        else
          var u := NewUser(newId, req.googleId.value, req.email.value, req.name.value, req.picture.GetOr(""));
          Reply(st.(users := st.users + [u]), Ok(LoginReply(Claims(u.id, u.email), LoginView(u))))
  }

  /** A returning user is signed in as stored: nothing is created and the request's name,
      email and picture do not overwrite the stored ones. */
  lemma ReturningUserUnchanged(st: Store, req: LoginRequest, newId: UserId)
    requires FindUser(st.users, newId).None?
    requires Truthy(req.googleId) && Truthy(req.email) && Truthy(req.name)
    requires FindUserByGoogleId(st.users, req.googleId.value).Some?
    ensures Login(st, req, newId).st == st
    ensures Login(st, req, newId).res == Ok(LoginReply(
      Claims(st.users[FindUserByGoogleId(st.users, req.googleId.value).value].id,
             st.users[FindUserByGoogleId(st.users, req.googleId.value).value].email),
      LoginView(st.users[FindUserByGoogleId(st.users, req.googleId.value).value])))
  {
  }

  /** Logging in again with the same request creates nobody and answers the same user. */
  lemma LoginIdempotent(st: Store, req: LoginRequest, newId: UserId, newId2: UserId)
    requires FindUser(st.users, newId).None?
    requires Login(st, req, newId).res.Ok?
    requires FindUser(Login(st, req, newId).st.users, newId2).None?
    ensures var st' := Login(st, req, newId).st;
      Login(st', req, newId2) == Reply(st', Login(st, req, newId).res)
  {
    var st' := Login(st, req, newId).st;
    if st' != st {
      var u := st'.users[|st.users|];
      assert u.googleId == req.googleId.value;
      var k := FindUserByGoogleId(st'.users, req.googleId.value);
      assert k.Some? && k.value == |st.users|;
    }
  }

  /** A first login with an unregistered email succeeds: exactly one user, `newId`, is
      appended and the reply signs that user in. */
  lemma NewUserCreated(st: Store, req: LoginRequest, newId: UserId)
    requires FindUser(st.users, newId).None?
    requires Truthy(req.googleId) && Truthy(req.email) && Truthy(req.name)
    requires FindUserByGoogleId(st.users, req.googleId.value).None?
    requires FindUserByEmail(st.users, req.email.value).None?
    ensures var u := NewUser(newId, req.googleId.value, req.email.value, req.name.value, req.picture.GetOr(""));
      Login(st, req, newId) == Reply(st.(users := st.users + [u]), Ok(LoginReply(Claims(newId, req.email.value), LoginView(u))))
  {
  }

  /** A first login stores a volunteer with default permissions, an incomplete profile and
      the picture given, or "" when there is none. */
  lemma FirstLoginDefaults(st: Store, req: LoginRequest, newId: UserId)
    requires FindUser(st.users, newId).None?
    requires Truthy(req.googleId) && Truthy(req.email) && Truthy(req.name)
    requires FindUserByGoogleId(st.users, req.googleId.value).None?
    requires FindUserByEmail(st.users, req.email.value).None?
    ensures var u := Login(st, req, newId).st.users[|st.users|];
      && u.role == Volunteer && u.permissions == DefaultPermissions && !u.isProfileComplete
      && u.profilePicture == (if req.picture.Some? then req.picture.value else "")
      && u.telegramId == ""
  {
  }

  /** A new Google id whose email is already registered is refused and nothing is stored. */
  lemma TakenEmailRefused(st: Store, req: LoginRequest, newId: UserId)
    requires FindUser(st.users, newId).None?
    requires Truthy(req.googleId) && Truthy(req.email) && Truthy(req.name)
    requires FindUserByGoogleId(st.users, req.googleId.value).None?
    requires FindUserByEmail(st.users, req.email.value).Some?
    ensures Login(st, req, newId) == Reply(st, Err(ServerError))
  {
  }

  // ---------------------------------------------------------------- token check

  /** `header?.replace('Bearer ', '')`: the first occurrence of the prefix removed, wherever
      it stands. */
  function TokenOf(header: Option<string>): Option<string> {
    match header
    case None => None
    case Some(h) => Some(ReplaceFirst(h, "Bearer ", ""))
  }

  /** verifyToken: 401 for a missing header or an empty token, and 401 for a token the
      verifier rejects; otherwise the user id it carries. */
  function VerifyToken(header: Option<string>, verify: string -> Option<UserId>): (r: Result<UserId>)
    ensures r.Err? ==> r.error == Unauthorized
    ensures header.None? ==> r.Err?
    ensures r.Ok? ==> TokenOf(header).Some? && verify(TokenOf(header).value) == Some(r.value)
  {
    match TokenOf(header)
    case None => Err(Unauthorized)
    case Some(token) =>
      if token == "" then Err(Unauthorized)
      else
        match verify(token)
        case None => Err(Unauthorized)
        case Some(uid) => Ok(uid)
  }

  /** A well-formed `Bearer <token>` header hands exactly the token to the verifier; a bare
      prefix is refused. */
  lemma BearerHeader(token: string, verify: string -> Option<UserId>)
    ensures VerifyToken(Some("Bearer " + token), verify) ==
      if token == "" then Err(Unauthorized)
      else match verify(token) case None => Err(Unauthorized) case Some(uid) => Ok(uid)
  {
    RemoveLeadingPattern("Bearer ", token);
  }

  /** A header without the prefix is passed to the verifier whole. */
  lemma HeaderWithoutPrefix(h: string, verify: string -> Option<UserId>)
    requires forall j :: !OccursAt(h, "Bearer ", j)
    requires h != ""
    ensures VerifyToken(Some(h), verify) == match verify(h) case None => Err(Unauthorized) case Some(uid) => Ok(uid)
  {
    ReplaceAbsent(h, "Bearer ", "");
  }
}

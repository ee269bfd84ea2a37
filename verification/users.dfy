/** The profile handlers of server/routes/user.js. */
module Users {
  import opened Wrappers
  import opened Models
  import Access

  /** GET /profile: the caller's document without the Google id, 404 when there is none. */
  function GetProfile(st: Store, uid: UserId): (r: Result<UserView>)
    ensures r.Err? <==> FindUser(st.users, uid).None?
    ensures r.Err? ==> r.error == NotFound
    ensures r.Ok? ==> r.value.id == uid
  {
    match FindUser(st.users, uid)
    case None => Err(NotFound)
    case Some(k) => Ok(View(st.users[k]))
  }

  /** The profile read reveals every stored field of the caller except the Google id. */
  lemma ProfileOmitsOnlyGoogleId(st: Store, uid: UserId, w: User)
    requires GetProfile(st, uid).Ok?
    ensures GetProfile(st, uid).value == View(w) <==> st.users[FindUser(st.users, uid).value].(googleId := w.googleId) == w
  {
    ViewHidesOnlyGoogleId(st.users[FindUser(st.users, uid).value], w);
  }

  /** The body of PUT /profile; an absent field is left alone. */
  datatype ProfileRequest = ProfileRequest(mobileNo: Option<string>, bio: Option<string>, role: Option<string>)

  /** The fields the update answers with. */
  datatype ProfileReply = ProfileReply(
    id: UserId,
    name: string,
    email: string,
    profilePicture: string,
    mobileNo: string,
    bio: string,
    role: Role,
    isProfileComplete: bool)

  /** The user after the update, or 500 when the role is outside the enum (the save fails). */
  function ApplyProfile(u: User, req: ProfileRequest): (r: Result<User>)
    ensures r.Err? <==> req.role.Some? && ParseRole(req.role.value).None?
  {
    var role :- EnumField(req.role, u.role, ParseRole);
    var mobileNo := req.mobileNo.GetOr(u.mobileNo);
    var bio := req.bio.GetOr(u.bio);
    Ok(u.(mobileNo := mobileNo, bio := bio, role := role,
          isProfileComplete := u.isProfileComplete || (mobileNo != "" && bio != "")))
  }

  /** PUT /profile: 404 for an unknown caller, 500 for a role outside the enum, and
      otherwise the supplied fields written and the completion flag raised when the mobile
      number and bio are both non-empty (a stored role is always non-empty). */
  function UpdateProfile(st: Store, uid: UserId, req: ProfileRequest): (r: Reply<ProfileReply>)
    ensures r.res.Err? ==> r.st == st
    ensures FindUser(st.users, uid).None? ==> r.res == Err(NotFound)
    ensures FindUser(st.users, uid).Some? ==> (r.res.Err? <==> req.role.Some? && ParseRole(req.role.value).None?)
    ensures r.res.Ok? ==>
      && FindUser(st.users, uid).Some?
      && r.st.channels == st.channels && r.st.tasks == st.tasks && r.st.messages == st.messages
      && |r.st.users| == |st.users|
  {
    match FindUser(st.users, uid)
    case None => Reply(st, Err(NotFound))
    case Some(k) =>
      match ApplyProfile(st.users[k], req)
      case Err(e) => Reply(st, Err(e))
      case Ok(u) =>
        Reply(st.(users := st.users[k := u]),
              Ok(ProfileReply(u.id, u.name, u.email, u.profilePicture, u.mobileNo, u.bio, u.role, u.isProfileComplete)))
  }

  /** Only the mobile number, the bio, the role and the completion flag of the caller can
      change; a supplied field is stored as given and an absent one kept; no other user is
      touched. */
  lemma UpdateTouchesOnlyProfileFields(st: Store, uid: UserId, req: ProfileRequest)
    requires UpdateProfile(st, uid, req).res.Ok?
    ensures var users' := UpdateProfile(st, uid, req).st.users;
      var k := FindUser(st.users, uid).value;
      var u := st.users[k];
      && users'[k].(mobileNo := u.mobileNo, bio := u.bio, role := u.role, isProfileComplete := u.isProfileComplete) == u
      && users'[k].mobileNo == req.mobileNo.GetOr(u.mobileNo)
      && users'[k].bio == req.bio.GetOr(u.bio)
      && (req.role.Some? ==> RoleName(users'[k].role) == req.role.value)
      && (req.role.None? ==> users'[k].role == u.role)
      && (forall j :: 0 <= j < |st.users| && j != k ==> users'[j] == st.users[j])
  {
  }

  /** The completion flag is raised exactly when the stored mobile number and bio are both
      non-empty after the update, and is never lowered. */
  lemma CompletionRule(st: Store, uid: UserId, req: ProfileRequest)
    requires UpdateProfile(st, uid, req).res.Ok?
    ensures var k := FindUser(st.users, uid).value;
      var u' := UpdateProfile(st, uid, req).st.users[k];
      && (u'.isProfileComplete <==> st.users[k].isProfileComplete || (u'.mobileNo != "" && u'.bio != ""))
      && (st.users[k].isProfileComplete ==> u'.isProfileComplete)
      && UpdateProfile(st, uid, req).res.value.isProfileComplete == u'.isProfileComplete
  {
  }

  /** Clearing both fields does not clear the flag of a completed profile. */
  lemma ClearingKeepsComplete(st: Store, uid: UserId)
    requires FindUser(st.users, uid).Some? && st.users[FindUser(st.users, uid).value].isProfileComplete
    ensures UpdateProfile(st, uid, ProfileRequest(Some(""), Some(""), None)).res.Ok?
    ensures UpdateProfile(st, uid, ProfileRequest(Some(""), Some(""), None)).res.value.isProfileComplete
  {
  }

  /** Repeating an update changes nothing further. */
  lemma UpdateIdempotent(st: Store, uid: UserId, req: ProfileRequest)
    requires UpdateProfile(st, uid, req).res.Ok?
    ensures var st' := UpdateProfile(st, uid, req).st;
      UpdateProfile(st', uid, req) == UpdateProfile(st, uid, req)
  {
    var k := FindUser(st.users, uid).value;
    var st' := UpdateProfile(st, uid, req).st;
    FindUserAfterUpdate(st.users, uid, st'.users[k]);
  }

  /** No privilege check guards the role: any user may make themselves a global admin. */
  lemma SelfPromotion(st: Store, uid: UserId)
    requires FindUser(st.users, uid).Some?
    ensures UpdateProfile(st, uid, ProfileRequest(None, None, Some("admin"))).res.Ok?
    ensures Access.RequireAdmin(UpdateProfile(st, uid, ProfileRequest(None, None, Some("admin"))).st.users, uid).Ok?
  {
    var k := FindUser(st.users, uid).value;
    var st' := UpdateProfile(st, uid, ProfileRequest(None, None, Some("admin"))).st;
    FindUserAfterUpdate(st.users, uid, st'.users[k]);
  }
}

/** The access-control middleware of server/middleware/admin.js: the global
    admin check, the per-permission check, and the per-channel check with its
    numeric role hierarchy. */
module Access {
  import opened Wrappers
  import opened Models
  import Text

  /** requireAdmin: the caller must exist (404) and hold the global admin role (403). */
  function RequireAdmin(users: seq<User>, uid: UserId): (r: Result<User>)
    ensures FindUser(users, uid).None? ==> r == Err(NotFound)
    ensures FindUser(users, uid).Some? ==>
      var u := users[FindUser(users, uid).value];
      r == if u.role == Admin then Ok(u) else Err(Forbidden)
  {
    match FindUser(users, uid)
    case None => Err(NotFound)
    case Some(i) => if users[i].role == Admin then Ok(users[i]) else Err(Forbidden)
  }

  /** The admin check passes exactly for registered global admins, and then hands on that user. */
  lemma RequireAdminPassesOnlyAdmins(users: seq<User>, uid: UserId)
    ensures RequireAdmin(users, uid).Ok? <==>
      exists i :: 0 <= i < |users| && users[i].id == uid && users[i].role == Admin
        && forall j :: 0 <= j < i ==> users[j].id != uid
    ensures RequireAdmin(users, uid).Ok? ==>
      RequireAdmin(users, uid).value.id == uid && RequireAdmin(users, uid).value.role == Admin
  {
    match FindUser(users, uid)
    case None =>
    case Some(i) =>
      if users[i].role != Admin {
        forall k | 0 <= k < |users| && users[k].id == uid && forall j :: 0 <= j < k ==> users[j].id != uid
          ensures users[k].role != Admin
        {
          assert k == i;
        }
      }
  }

  /** requirePermission(name): a global admin holds every permission; anyone else needs
      the named flag to be set. */
  function RequirePermission(users: seq<User>, uid: UserId, permission: string): (r: Result<User>)
    ensures FindUser(users, uid).None? ==> r == Err(NotFound)
    ensures FindUser(users, uid).Some? ==>
      var u := users[FindUser(users, uid).value];
      r == if u.role == Admin || PermissionFlag(u.permissions, permission) then Ok(u) else Err(Forbidden)
  {
    match FindUser(users, uid)
    case None => Err(NotFound)
    case Some(i) =>
      if users[i].role == Admin then Ok(users[i])
      else if !PermissionFlag(users[i].permissions, permission) then Err(Forbidden)
      else Ok(users[i])
  }

  /** Whatever passes the admin check passes every permission check. */
  lemma AdminHasEveryPermission(users: seq<User>, uid: UserId, permission: string)
    requires RequireAdmin(users, uid).Ok?
    ensures RequirePermission(users, uid, permission) == RequireAdmin(users, uid)
  {
  }

  /** A name that is neither one of the four flags nor inherited from Object.prototype is
      refused to every non-admin. */
  lemma UnknownPermissionOnlyForAdmins(users: seq<User>, uid: UserId, permission: string)
    requires permission !in {"canCreateChannels", "canManageUsers", "canAccessAnalytics", "canExportData"}
    requires !Text.Inherited(permission)
    ensures RequirePermission(users, uid, permission).Ok? <==> RequireAdmin(users, uid).Ok?
  {
  }

  /** A name inherited from Object.prototype, such as "toString", reads as a truthy
      function on every permissions object, so every registered user passes. */
  lemma InheritedPermissionPassesEveryone(users: seq<User>, uid: UserId, permission: string)
    requires Text.Inherited(permission)
    ensures RequirePermission(users, uid, permission).Ok? <==> FindUser(users, uid).Some?
  {
  }

  /** `roleHierarchy[role] || 1`: volunteer 1, organizer 2, admin 3, anything else 1. */
  function RoleLevel(role: string): (n: int)
    ensures 1 <= n <= 3
    ensures n == 3 <==> role == "admin"
    ensures n == 2 <==> role == "organizer"
  {
    if role == "admin" then 3 else if role == "organizer" then 2 else 1
  }

  /** The levels order the three roles strictly. */
  lemma RoleLevelsOrdered()
    ensures RoleLevel(RoleName(Volunteer)) < RoleLevel(RoleName(Organizer)) < RoleLevel(RoleName(Admin))
  {
  }

  /** How the caller was let through. */
  datatype Grant =
    | GlobalAdmin(user: User)
    | ChannelAdmin(user: User, channel: Channel)
    | MemberGrant(user: User, channel: Channel, membership: Membership)

  /** `channel.members.find(m => m.user == uid)`. */
  function FindMembership(c: Channel, uid: UserId): (r: Option<nat>)
    ensures r.Some? ==> r.value < |c.members| && c.members[r.value].user == uid
    ensures r.None? <==> !IsMember(c, uid)
  {
    Seqs.FindFirst(c.members, (m: Membership) => m.user == uid)
  }

  /** requireChannelAccess(minRole).  The channel id is the route parameter or the body
      field, either of which may be missing. */
  function RequireChannelAccess(st: Store, uid: UserId, channelId: Option<ChannelId>, minRole: string): (r: Result<Grant>)
  {
    match FindUser(st.users, uid)
    case None => Err(NotFound)
    case Some(i) =>
      var u := st.users[i];
      if u.role == Admin then Ok(GlobalAdmin(u))
      else if channelId.None? || channelId.value !in st.channels then Err(NotFound)
      else
        var c := st.channels[channelId.value];
        if c.admin == u.id then Ok(ChannelAdmin(u, c))
        else match FindMembership(c, u.id)
          case None => Err(Forbidden)
          case Some(k) =>
            if RoleLevel(RoleName(c.members[k].role)) < RoleLevel(minRole) then Err(Forbidden)
            else Ok(MemberGrant(u, c, c.members[k]))
  }

  /** A global admin passes before the channel is looked up, so even for an id that
      does not resolve. */
  lemma GlobalAdminPassesEverywhere(st: Store, uid: UserId, channelId: Option<ChannelId>, minRole: string)
    requires RequireAdmin(st.users, uid).Ok?
    ensures RequireChannelAccess(st, uid, channelId, minRole).Ok?
    ensures RequireChannelAccess(st, uid, channelId, minRole).value.GlobalAdmin?
  {
  }

  /** The two 404s of the channel-access check: a caller with no user document, and, for a
      caller who is not a global admin, a channel id that is missing or names no channel. */
  lemma UnknownUserOrChannelNotFound(st: Store, uid: UserId, channelId: Option<ChannelId>, minRole: string)
    ensures FindUser(st.users, uid).None? ==> RequireChannelAccess(st, uid, channelId, minRole) == Err(NotFound)
    ensures && FindUser(st.users, uid).Some? && st.users[FindUser(st.users, uid).value].role != Admin
            && (channelId.None? || channelId.value !in st.channels)
            ==> RequireChannelAccess(st, uid, channelId, minRole) == Err(NotFound)
  {
  }

  /** The user named in the channel's admin field passes for every minimum role, whether
      or not the member list mentions them. */
  lemma ChannelAdminPassesEveryLevel(st: Store, uid: UserId, cid: ChannelId, minRole: string)
    requires FindUser(st.users, uid).Some?
    requires cid in st.channels && st.channels[cid].admin == uid
    ensures RequireChannelAccess(st, uid, Some(cid), minRole).Ok?
  {
  }

  /** Someone who is neither global admin, channel admin nor member is refused with 403. */
  lemma OutsiderRefused(st: Store, uid: UserId, cid: ChannelId, minRole: string)
    requires RequireAdmin(st.users, uid) == Err(Forbidden)
    requires cid in st.channels && st.channels[cid].admin != uid && !IsMember(st.channels[cid], uid)
    ensures RequireChannelAccess(st, uid, Some(cid), minRole) == Err(Forbidden)
  {
  }

  /** A member passes exactly when their membership level reaches the minimum. */
  lemma MemberPassesIffLevelReached(st: Store, uid: UserId, cid: ChannelId, minRole: string)
    requires RequireAdmin(st.users, uid) == Err(Forbidden)
    requires cid in st.channels && st.channels[cid].admin != uid
    requires FindMembership(st.channels[cid], uid).Some?
    ensures var m := st.channels[cid].members[FindMembership(st.channels[cid], uid).value];
      RequireChannelAccess(st, uid, Some(cid), minRole).Ok? <==> RoleLevel(RoleName(m.role)) >= RoleLevel(minRole)
  {
  }

  /** Access is monotone in the minimum role: passing for `minRole` implies passing for
      every minimum role of the same or a lower level. */
  lemma AccessMonotone(st: Store, uid: UserId, channelId: Option<ChannelId>, minRole: string, lower: string)
    requires RoleLevel(lower) <= RoleLevel(minRole)
    requires RequireChannelAccess(st, uid, channelId, minRole).Ok?
    ensures RequireChannelAccess(st, uid, channelId, lower).Ok?
  {
  }

  /** An unrecognised minimum role demands no more than volunteer. */
  lemma UnknownMinRoleIsVolunteer(st: Store, uid: UserId, channelId: Option<ChannelId>, minRole: string)
    requires minRole != "admin" && minRole != "organizer"
    ensures RequireChannelAccess(st, uid, channelId, minRole) == RequireChannelAccess(st, uid, channelId, "volunteer")
  {
  }
}

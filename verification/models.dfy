/** The mongoose schemas of server/models (Channel.js, User.js, Message.js) and
    the fields of the Task documents the task routes read and write, as
    immutable records; the document store is `Store`. */
module Models {
  import opened Wrappers
  import opened Seqs
  import Text
  import AiService
  import Telegram

  type UserId = string
  type ChannelId = string
  type TaskId = string
  type MessageId = string

  predicate HexDigit(c: char) {
    '0' <= c <= '9' || 'a' <= c <= 'f' || 'A' <= c <= 'F'
  }

  /** Text that mongoose casts to an ObjectId: 24 hexadecimal digits.  Saving a document
      whose reference field holds anything else fails with a cast error. */
  predicate ObjectIdText(s: string) {
    |s| == 24 && forall i :: 0 <= i < |s| ==> HexDigit(s[i])
  }

  /** The role enum shared by `User.role` and `members.role`. */
  datatype Role = Admin | Organizer | Volunteer

  function RoleName(r: Role): string {
    match r
    case Admin => "admin"
    case Organizer => "organizer"
    case Volunteer => "volunteer"
  }

  function ParseRole(s: string): (r: Option<Role>)
    ensures r.Some? ==> RoleName(r.value) == s
  {
    if s == "admin" then Some(Admin)
    else if s == "organizer" then Some(Organizer)
    else if s == "volunteer" then Some(Volunteer)
    else None
  }

  /** Parsing is the inverse of naming: exactly the three names are accepted. */
  lemma RoleNamesRoundTrip(r: Role)
    ensures ParseRole(RoleName(r)) == Some(r)
  {
  }

  /** `invitations.role`: an invitation can never propose the admin role. */
  datatype InviteRole = InviteOrganizer | InviteVolunteer

  function InviteRoleName(r: InviteRole): string {
    match r
    case InviteOrganizer => "organizer"
    case InviteVolunteer => "volunteer"
  }

  function ParseInviteRole(s: string): (r: Option<InviteRole>)
    ensures r.Some? ==> InviteRoleName(r.value) == s
  {
    if s == "organizer" then Some(InviteOrganizer)
    else if s == "volunteer" then Some(InviteVolunteer)
    else None
  }

  /** The membership role an accepted invitation grants. */
  function GrantedRole(r: InviteRole): (m: Role)
    ensures m != Admin
    ensures RoleName(m) == InviteRoleName(r)
  {
    match r
    case InviteOrganizer => Organizer
    case InviteVolunteer => Volunteer
  }

  lemma InviteRolesRoundTrip(r: InviteRole)
    ensures ParseInviteRole(InviteRoleName(r)) == Some(r)
  {
  }

  /** "admin" is a valid user or member role but not a valid invitation role. */
  lemma AdminIsNotInvitable()
    ensures ParseRole("admin") == Some(Admin)
    ensures ParseInviteRole("admin") == None
  {
  }

  datatype InviteStatus = Pending | Accepted | Declined

  datatype EventType = Hackathon | Wedding | Conference | Workshop | Meeting | Festival | Other

  /** The schema's names for the event types; none of them is an Object.prototype member,
      so the AI service's tables look them up as their own entries or not at all. */
  function EventTypeName(e: EventType): (n: string)
    ensures !Text.Inherited(n)
  {
    match e
    case Hackathon => "hackathon"
    case Wedding => "wedding"
    case Conference => "conference"
    case Workshop => "workshop"
    case Meeting => "meeting"
    case Festival => "festival"
    case Other => "other"
  }

  function ParseEventType(s: string): (r: Option<EventType>)
    ensures r.Some? ==> EventTypeName(r.value) == s
  {
    if s == "hackathon" then Some(Hackathon)
    else if s == "wedding" then Some(Wedding)
    else if s == "conference" then Some(Conference)
    else if s == "workshop" then Some(Workshop)
    else if s == "meeting" then Some(Meeting)
    else if s == "festival" then Some(Festival)
    else if s == "other" then Some(Other)
    else None
  }

  lemma EventTypesRoundTrip(e: EventType)
    ensures ParseEventType(EventTypeName(e)) == Some(e)
  {
  }

  datatype ChannelStatus = Planning | Active | Completed | Cancelled

  function ChannelStatusName(s: ChannelStatus): string {
    match s
    case Planning => "planning"
    case Active => "active"
    case Completed => "completed"
    case Cancelled => "cancelled"
  }

  datatype MessageType = Text | AiResponse | System | TaskUpdate | File

  function MessageTypeName(t: MessageType): string {
    match t
    case Text => "text"
    case AiResponse => "ai-response"
    case System => "system"
    case TaskUpdate => "task-update"
    case File => "file"
  }

  function ParseMessageType(s: string): (r: Option<MessageType>)
    ensures r.Some? ==> MessageTypeName(r.value) == s
  {
    if s == "text" then Some(Text)
    else if s == "ai-response" then Some(AiResponse)
    else if s == "system" then Some(System)
    else if s == "task-update" then Some(TaskUpdate)
    else if s == "file" then Some(File)
    else None
  }

  lemma MessageTypesRoundTrip(t: MessageType)
    ensures ParseMessageType(MessageTypeName(t)) == Some(t)
  {
  }

  /** How mongoose stores an enum field given in a request: a missing value takes the
      schema default; a value outside the enum fails validation when the document is
      saved, which the handler answers with 500. */
  function EnumField<E>(given: Option<string>, default: E, parse: string -> Option<E>): (r: Result<E>)
    ensures given.None? ==> r == Ok(default)
    ensures given.Some? && parse(given.value).Some? ==> r == Ok(parse(given.value).value)
    ensures given.Some? && parse(given.value).None? ==> r == Err(ServerError)
  {
    match given
    case None => Ok(default)
    case Some(s) =>
      match parse(s)
      case Some(e) => Ok(e)
      case None => Err(ServerError)
  }

  datatype Permissions = Permissions(
    canCreateChannels: bool,
    canManageUsers: bool,
    canAccessAnalytics: bool,
    canExportData: bool)

  /** The schema defaults: only channel creation is allowed. */
  const DefaultPermissions: Permissions := Permissions(true, false, false, false)

  /** The truthiness of `user.permissions[name]`: a name that is not one of the four flags
      reads as undefined, unless it is inherited from Object.prototype, which reads as a
      function. */
  function PermissionFlag(p: Permissions, name: string): bool {
    if name == "canCreateChannels" then p.canCreateChannels
    else if name == "canManageUsers" then p.canManageUsers
    else if name == "canAccessAnalytics" then p.canAccessAnalytics
    else if name == "canExportData" then p.canExportData
    else Text.Inherited(name)
  }

  datatype User = User(
    id: UserId,
    googleId: string,
    email: string,
    name: string,
    profilePicture: string,
    isProfileComplete: bool,
    mobileNo: string,
    bio: string,
    role: Role,
    permissions: Permissions,
    telegramId: string)

  /** A user document as first saved: every optional field at its schema default. */
  function NewUser(id: UserId, googleId: string, email: string, name: string, picture: string): (u: User)
    ensures u.id == id && u.googleId == googleId && u.email == email && u.name == name
    ensures u.profilePicture == picture
    ensures !u.isProfileComplete && u.mobileNo == "" && u.bio == ""
    ensures u.role == Volunteer && u.permissions == DefaultPermissions
    ensures u.telegramId == ""
  {
    User(id, googleId, email, name, picture, false, "", "", Volunteer, DefaultPermissions, "")
  }

  /** An empty `telegramId` (the default) means the user has no bot contact. */
  predicate HasContact(u: User) {
    u.telegramId != ""
  }

  /** A user document read with `.select('-googleId')`: every field but the Google id. */
  datatype UserView = UserView(
    id: UserId,
    email: string,
    name: string,
    profilePicture: string,
    isProfileComplete: bool,
    mobileNo: string,
    bio: string,
    role: Role,
    permissions: Permissions,
    telegramId: string)

  function View(u: User): UserView {
    UserView(u.id, u.email, u.name, u.profilePicture, u.isProfileComplete, u.mobileNo, u.bio,
             u.role, u.permissions, u.telegramId)
  }

  /** The view hides the Google id and nothing else: two users look the same exactly when
      they differ at most in that field. */
  lemma ViewHidesOnlyGoogleId(u: User, w: User)
    ensures View(u) == View(w) <==> u.(googleId := w.googleId) == w
  {
  }

  datatype Membership = Membership(user: UserId, role: Role, joinedAt: int)

  datatype Invitation = Invitation(
    email: string,
    role: InviteRole,
    status: InviteStatus,
    invitedBy: UserId,
    invitedAt: int)

  /** The `aiPlan` subdocument of a channel: the request's details, the action plan and
      when it was generated.  The schema declares the action plan an array, so a single plan
      object assigned to it is stored as a one-element array. */
  datatype StoredPlan = StoredPlan(
    eventDetails: AiService.EventDetails,
    actionPlan: seq<AiService.EventPlan>,
    generatedAt: Option<int>)

  /** The schema default of a channel's plan: empty details, an empty action plan and no
      generation time. */
  const DefaultPlan: StoredPlan :=
    StoredPlan(AiService.EventDetails(None, None, None, None, None, None), [], None)

  datatype Channel = Channel(
    id: ChannelId,
    name: string,
    description: string,
    eventType: EventType,
    admin: UserId,
    members: seq<Membership>,
    invitations: seq<Invitation>,
    aiPlan: StoredPlan,
    status: ChannelStatus)

  /** `channel.members.some(m => m.user == uid)`. */
  predicate IsMember(c: Channel, uid: UserId) {
    exists i :: 0 <= i < |c.members| && c.members[i].user == uid
  }

  datatype Comment = Comment(user: UserId, message: string)

  /** The fields of a task document that the routes read and write.  The Task schema
      is not part of this model, so `status` stays a string and its default is supplied
      by the caller of `Tasks.CreateTask`. */
  datatype Task = Task(
    id: TaskId,
    title: string,
    description: Option<string>,
    channel: ChannelId,
    assignedTo: Option<UserId>,
    createdBy: UserId,
    priority: Option<string>,
    dueDate: Option<int>,
    estimatedHours: Option<int>,
    tags: seq<string>,
    status: string,
    comments: seq<Comment>,
    createdAt: int)

  /** The task filters `{ channel: cid }` and `{ status: s }`. */
  function InChannel(cid: ChannelId): Task -> bool {
    (t: Task) => t.channel == cid
  }

  function HasStatus(status: string): Task -> bool {
    (t: Task) => t.status == status
  }

  datatype Message = Message(
    id: MessageId,
    channel: ChannelId,
    sender: Option<UserId>,
    content: string,
    msgType: MessageType,
    isAI: bool,
    createdAt: int)

  /** A message authored by the AI helpers: no sender, type ai-response, flagged as AI. */
  function AiMessage(id: MessageId, channel: ChannelId, content: string, now: int): (m: Message)
    ensures m.sender.None? && m.msgType == AiResponse && m.isAI
    ensures m.channel == channel && m.content == content
  {
    Message(id, channel, None, content, AiResponse, true, now)
  }

  /** The document store: the users and the messages and tasks in insertion order, the
      channels by id, and the bot messages attempted so far. */
  datatype Store = Store(
    users: seq<User>,
    channels: map<ChannelId, Channel>,
    tasks: seq<Task>,
    messages: seq<Message>,
    outbox: seq<Telegram.Delivery>)

  /** What a handler reads from its surroundings: the clock, its locale rendering, and
      whether a bot token is configured. */
  datatype Env = Env(now: int, timeText: string, botReady: bool)

  /** A handler's effect: the store afterwards and the response. */
  datatype Reply<T> = Reply(st: Store, res: Result<T>)

  /** `User.findById(id)`. */
  function FindUser(users: seq<User>, id: UserId): (r: Option<nat>)
    ensures r.Some? ==> r.value < |users| && users[r.value].id == id
    ensures r.Some? ==> forall j :: 0 <= j < r.value ==> users[j].id != id
    ensures r.None? ==> forall i :: 0 <= i < |users| ==> users[i].id != id
  {
    FindFirst(users, (u: User) => u.id == id)
  }

  /** Rewriting the user found for an id, keeping the id, leaves the lookup where it was. */
  lemma FindUserAfterUpdate(users: seq<User>, id: UserId, u: User)
    requires FindUser(users, id).Some? && u.id == id
    ensures FindUser(users[FindUser(users, id).value := u], id) == FindUser(users, id)
  {
    var k := FindUser(users, id).value;
    var users' := users[k := u];
    assert users'[k].id == id;
    assert forall j :: 0 <= j < k ==> users'[j].id != id;
  }

  /** `User.findOne({ email })`. */
  function FindUserByEmail(users: seq<User>, email: string): (r: Option<nat>)
    ensures r.Some? ==> r.value < |users| && users[r.value].email == email
    ensures r.None? ==> forall i :: 0 <= i < |users| ==> users[i].email != email
  {
    FindFirst(users, (u: User) => u.email == email)
  }

  /** `User.findOne({ googleId })`. */
  function FindUserByGoogleId(users: seq<User>, googleId: string): (r: Option<nat>)
    ensures r.Some? ==> r.value < |users| && users[r.value].googleId == googleId
    ensures r.None? ==> forall i :: 0 <= i < |users| ==> users[i].googleId != googleId
  {
    FindFirst(users, (u: User) => u.googleId == googleId)
  }

  /** `Task.findById(id)`. */
  function FindTask(tasks: seq<Task>, id: TaskId): (r: Option<nat>)
    ensures r.Some? ==> r.value < |tasks| && tasks[r.value].id == id
    ensures r.None? ==> forall i :: 0 <= i < |tasks| ==> tasks[i].id != id
  {
    FindFirst(tasks, (t: Task) => t.id == id)
  }

  /** Every member of every channel is a registered user, so populating `members.user`
      never yields null. */
  ghost predicate MembersResolve(users: seq<User>, members: seq<Membership>) {
    forall i :: 0 <= i < |members| ==> FindUser(users, members[i].user).Some?
  }

  /** `channel.members.some(m => m.user._id.toString() === uid)` after populating
      `members.user`: the scan stops at the first match, and a member met before it whose
      user does not resolve is null, so reading its `_id` throws (500). */
  function PopulatedIsMember(users: seq<User>, members: seq<Membership>, uid: UserId): (r: Result<bool>)
    ensures r == Ok(true) ==> exists i :: 0 <= i < |members| && members[i].user == uid
    ensures r == Ok(false) ==> forall i :: 0 <= i < |members| ==> members[i].user != uid
    ensures r == Ok(true) ==> FindUser(users, uid).Some?
    ensures r.Err? ==> r.error == ServerError
    decreases |members|
  {
    if |members| == 0 then Ok(false)
    else if FindUser(users, members[0].user).None? then Err(ServerError)
    else if members[0].user == uid then Ok(true)
    else PopulatedIsMember(users, members[1..], uid)
  }

  /** With every member resolving, the populated check is the plain membership test. */
  lemma {:induction false} PopulatedIsMemberAgrees(users: seq<User>, c: Channel, uid: UserId)
    requires MembersResolve(users, c.members)
    ensures PopulatedIsMember(users, c.members, uid) == Ok(IsMember(c, uid))
  {
    PopulatedScan(users, c.members, uid);
    var r := PopulatedIsMember(users, c.members, uid);
    if r.value {
      assert IsMember(c, uid);
    } else {
      assert !IsMember(c, uid);
    }
  }

  lemma {:induction false} PopulatedScan(users: seq<User>, members: seq<Membership>, uid: UserId)
    requires MembersResolve(users, members)
    ensures PopulatedIsMember(users, members, uid).Ok?
    decreases |members|
  {
    if |members| > 0 && members[0].user != uid {
      assert MembersResolve(users, members[1..]) by {
        forall i | 0 <= i < |members[1..]| ensures FindUser(users, members[1..][i].user).Some? {
          assert members[1..][i] == members[i + 1];
        }
      }
      PopulatedScan(users, members[1..], uid);
    }
  }
}

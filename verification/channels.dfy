/** The channel handlers of server/routes/channel.js: creating a channel, listing
    the caller's channels, reading one, the invitation lifecycle (invite, accept,
    list pending), and reading and sending channel messages. */
module Channels {
  import opened Wrappers
  import opened Seqs
  import opened Text
  import opened Models
  import Telegram

  // ---------------------------------------------------------------- create

  datatype CreateRequest = CreateRequest(name: Option<string>, description: Option<string>, eventType: Option<string>)

  /** A new channel as saved: the trimmed name, the creator as admin field and as its
      only member, with the admin role; every other field at its schema default. */
  function NewChannel(id: ChannelId, name: string, description: string, eventType: EventType,
                      caller: UserId, now: int): Channel
  {
    Channel(id, Trim(name), description, eventType, caller, [Membership(caller, Admin, now)], [], DefaultPlan, Planning)
  }

  /** POST /create.  A falsy name is refused with 400.  The schema trims the name before
      its required check, so a name of only whitespace, like an event type outside the
      enum, fails validation on save (500).  The id is the fresh one the database assigns. */
  function CreateChannel(st: Store, caller: UserId, req: CreateRequest, id: ChannelId, now: int): (r: Reply<Channel>)
    requires id !in st.channels
    ensures !Truthy(req.name) ==> r == Reply(st, Err(BadRequest))
    ensures r.res.Err? ==> r.st == st
    ensures r.res.Ok? <==>
      Truthy(req.name) && !IsBlank(req.name.value) && EnumField(req.eventType, Other, ParseEventType).Ok?
    ensures r.res.Ok? ==> r.st == st.(channels := st.channels[id := r.res.value])
    ensures r.res.Ok? ==>
      var c := r.res.value;
      && c.id == id && c.admin == caller && c.name == Trim(req.name.value)
      && c.members == [Membership(caller, Admin, now)] && c.invitations == []
      && c.description == req.description.GetOr("")
      && c.eventType == EnumField(req.eventType, Other, ParseEventType).value
      && c.status == Planning && c.aiPlan == DefaultPlan
  {
    if !Truthy(req.name) then Reply(st, Err(BadRequest))
    else
      TrimEmptyIffBlank(req.name.value);
      if Trim(req.name.value) == "" then Reply(st, Err(ServerError))
      else match EnumField(req.eventType, Other, ParseEventType)
        case Err(e) => Reply(st, Err(e))
        case Ok(et) =>
          var c := NewChannel(id, req.name.value, req.description.GetOr(""), et, caller, now);
          Reply(st.(channels := st.channels[id := c]), Ok(c))
  }

  // ---------------------------------------------------------------- list and read

  /** The `$or` filter of GET /my-channels: the admin field or a membership. */
  predicate ListedFor(c: Channel, uid: UserId) {
    c.admin == uid || IsMember(c, uid)
  }

  /** GET /my-channels, as the set of channel ids it returns (the order by last update
      is not modelled). */
  function MyChannels(st: Store, uid: UserId): (r: set<ChannelId>)
    ensures forall cid :: cid in r <==> cid in st.channels && (st.channels[cid].admin == uid || IsMember(st.channels[cid], uid))
  {
    set cid | cid in st.channels && ListedFor(st.channels[cid], uid)
  }

  /** A channel appears in its creator's list right after creation. */
  lemma CreatedChannelIsListed(st: Store, caller: UserId, req: CreateRequest, id: ChannelId, now: int)
    requires id !in st.channels
    requires CreateChannel(st, caller, req, id, now).res.Ok?
    ensures MyChannels(CreateChannel(st, caller, req, id, now).st, caller) == MyChannels(st, caller) + {id}
  {
    var st' := CreateChannel(st, caller, req, id, now).st;
    assert forall cid :: cid in st.channels ==> st'.channels[cid] == st.channels[cid];
  }

  /** GET /:channelId.  Only a member may read the channel: the admin field alone grants
      nothing.  The membership test runs on populated users. */
  function GetChannel(st: Store, uid: UserId, cid: ChannelId): (r: Result<Channel>)
    ensures cid !in st.channels ==> r == Err(NotFound)
    ensures r.Ok? ==> cid in st.channels && r.value == st.channels[cid] && IsMember(r.value, uid)
  {
    if cid !in st.channels then Err(NotFound)
    else
      var c := st.channels[cid];
      match PopulatedIsMember(st.users, c.members, uid)
      case Err(e) => Err(e)
      case Ok(isMember) =>
        if !isMember then Err(Forbidden) else Ok(c)
  }

  /** When every member resolves, the channel read succeeds exactly for members and
      refuses everyone else with 403. */
  lemma GetChannelIffMember(st: Store, uid: UserId, cid: ChannelId)
    requires cid in st.channels && MembersResolve(st.users, st.channels[cid].members)
    ensures GetChannel(st, uid, cid).Ok? <==> IsMember(st.channels[cid], uid)
    ensures GetChannel(st, uid, cid).Err? ==> GetChannel(st, uid, cid).error == Forbidden
  {
    PopulatedIsMemberAgrees(st.users, st.channels[cid], uid);
  }

  /** Every channel the caller may read is on the caller's list. */
  lemma ReadableChannelIsListed(st: Store, uid: UserId, cid: ChannelId)
    requires GetChannel(st, uid, cid).Ok?
    ensures cid in MyChannels(st, uid)
  {
  }

  /** The channel's admin field without a membership gets 403 from the channel read,
      while the channel-access middleware would let them through. */
  lemma AdminFieldAloneGrantsNothing(st: Store, uid: UserId, cid: ChannelId)
    requires cid in st.channels && st.channels[cid].admin == uid && !IsMember(st.channels[cid], uid)
    ensures GetChannel(st, uid, cid).Err?
  {
  }

  // ---------------------------------------------------------------- invitations

  /** `channel.invitations.find(inv => inv.email === email && inv.status === 'pending')`. */
  function FindPending(c: Channel, email: string): (r: Option<nat>)
    ensures r.Some? ==>
      r.value < |c.invitations| && c.invitations[r.value].email == email && c.invitations[r.value].status == Pending
    ensures r.Some? ==>
      forall j :: 0 <= j < r.value ==> !(c.invitations[j].email == email && c.invitations[j].status == Pending)
    ensures r.None? <==> !HasPending(c, email)
  {
    FindFirst(c.invitations, (inv: Invitation) => inv.email == email && inv.status == Pending)
  }

  /** Some invitation of the channel is pending and addressed to `email`. */
  predicate HasPending(c: Channel, email: string) {
    exists i :: 0 <= i < |c.invitations| && c.invitations[i].email == email && c.invitations[i].status == Pending
  }

  datatype InviteRequest = InviteRequest(email: Option<string>, role: Option<string>)

  /** POST /:channelId/invite, its checks in order: an email (400), an existing channel
      (404), the caller in the admin field (403), a registered user with that email (404),
      not already a member (400), no pending invitation for that email (400).  The role
      defaults to volunteer when missing; one outside the invitation enum fails
      validation on save (500). */
  function Invite(st: Store, caller: UserId, cid: ChannelId, req: InviteRequest, now: int): (r: Reply<Invitation>)
    ensures r.res.Err? ==> r.st == st
    ensures !Truthy(req.email) ==> r.res == Err(BadRequest)
    ensures Truthy(req.email) && cid !in st.channels ==> r.res == Err(NotFound)
    ensures Truthy(req.email) && cid in st.channels && st.channels[cid].admin != caller ==> r.res == Err(Forbidden)
    ensures Truthy(req.email) && cid in st.channels && st.channels[cid].admin == caller ==>
      var c := st.channels[cid];
      var found := FindUserByEmail(st.users, req.email.value);
      && (found.None? ==> r.res == Err(NotFound))
      && (found.Some? && IsMember(c, st.users[found.value].id) ==> r.res == Err(BadRequest))
      && (found.Some? && !IsMember(c, st.users[found.value].id) && HasPending(c, req.email.value) ==>
            r.res == Err(BadRequest))
      && (found.Some? && !IsMember(c, st.users[found.value].id) && !HasPending(c, req.email.value) ==>
            (r.res.Ok? <==> EnumField(req.role, InviteVolunteer, ParseInviteRole).Ok?)
            && (r.res.Err? ==> r.res == Err(ServerError)))
    ensures r.res.Ok? ==>
      && Truthy(req.email) && cid in st.channels && st.channels[cid].admin == caller
      && FindUserByEmail(st.users, req.email.value).Some?
      && !IsMember(st.channels[cid], st.users[FindUserByEmail(st.users, req.email.value).value].id)
      && !HasPending(st.channels[cid], req.email.value)
    ensures r.res.Ok? ==>
      var c := st.channels[cid];
      && EnumField(req.role, InviteVolunteer, ParseInviteRole).Ok?
      && r.res.value == Invitation(req.email.value, EnumField(req.role, InviteVolunteer, ParseInviteRole).value,
                                   Pending, caller, now)
      && r.st == st.(channels := st.channels[cid := c.(invitations := c.invitations + [r.res.value])])
  {
    if !Truthy(req.email) then Reply(st, Err(BadRequest))
    else
      var email := req.email.value;
      if cid !in st.channels then Reply(st, Err(NotFound))
      else
        var c := st.channels[cid];
        if c.admin != caller then Reply(st, Err(Forbidden))
        else match FindUserByEmail(st.users, email)
          case None => Reply(st, Err(NotFound))
          case Some(k) =>
            if IsMember(c, st.users[k].id) then Reply(st, Err(BadRequest))
            else if FindPending(c, email).Some? then Reply(st, Err(BadRequest))
            else match EnumField(req.role, InviteVolunteer, ParseInviteRole)
              case Err(e) => Reply(st, Err(e))
              case Ok(role) =>
                var inv := Invitation(email, role, Pending, caller, now);
                Reply(st.(channels := st.channels[cid := c.(invitations := c.invitations + [inv])]), Ok(inv))
  }

  /** An invitation with no role given proposes the volunteer role. */
  lemma InviteDefaultsToVolunteer(st: Store, caller: UserId, cid: ChannelId, email: Option<string>, now: int)
    requires Invite(st, caller, cid, InviteRequest(email, None), now).res.Ok?
    ensures Invite(st, caller, cid, InviteRequest(email, None), now).res.value.role == InviteVolunteer
  {
  }

  /** Inviting someone who already has a pending invitation is refused, whatever role is
      asked for. */
  lemma InviteRefusesSecondPending(st: Store, caller: UserId, cid: ChannelId, email: string, role: Option<string>, now: int)
    requires cid in st.channels && HasPending(st.channels[cid], email)
    ensures Invite(st, caller, cid, InviteRequest(Some(email), role), now).res.Err?
  {
  }

  /** POST /invitation/:channelId/accept.  The channel is looked up first (404); the first
      pending invitation addressed to the caller's email is required (404).  The caller's
      email is read inside the search, so a caller with no user document fails (500) only
      when the channel has an invitation to compare with, and gets 404 otherwise.  The caller is appended as a member
      with the invitation's role, and that invitation becomes accepted. */
  function Accept(st: Store, caller: UserId, cid: ChannelId, now: int): (r: Reply<Channel>)
    ensures r.res.Err? ==> r.st == st
    ensures cid !in st.channels ==> r.res == Err(NotFound)
    ensures cid in st.channels && FindUser(st.users, caller).None? ==>
      r.res == (if |st.channels[cid].invitations| > 0 then Err(ServerError) else Err(NotFound))
    ensures cid in st.channels && FindUser(st.users, caller).Some? ==>
      (r.res.Ok? <==> HasPending(st.channels[cid], st.users[FindUser(st.users, caller).value].email))
    ensures r.res.Err? && cid in st.channels && FindUser(st.users, caller).Some? ==> r.res == Err(NotFound)
    ensures r.res.Ok? ==>
      var c := st.channels[cid];
      var email := st.users[FindUser(st.users, caller).value].email;
      var k := FindPending(c, email).value;
      && r.res.value == c.(members := c.members + [Membership(caller, GrantedRole(c.invitations[k].role), now)],
                          invitations := c.invitations[k := c.invitations[k].(status := Accepted)])
      && r.st == st.(channels := st.channels[cid := r.res.value])
  {
    if cid !in st.channels then Reply(st, Err(NotFound))
    else match FindUser(st.users, caller)
      case None =>
        if |st.channels[cid].invitations| > 0 then Reply(st, Err(ServerError)) else Reply(st, Err(NotFound))
      case Some(u) =>
        var c := st.channels[cid];
        match FindPending(c, st.users[u].email)
        case None => Reply(st, Err(NotFound))
        case Some(k) =>
          var inv := c.invitations[k];
          var c' := c.(members := c.members + [Membership(caller, GrantedRole(inv.role), now)],
                       invitations := c.invitations[k := inv.(status := Accepted)]);
          Reply(st.(channels := st.channels[cid := c']), Ok(c'))
  }

  /** Accepting adds exactly one member, never with the admin role, and leaves the earlier
      members as they were. */
  lemma AcceptAddsOneMember(st: Store, caller: UserId, cid: ChannelId, now: int)
    requires Accept(st, caller, cid, now).res.Ok?
    ensures var c' := Accept(st, caller, cid, now).res.value;
      && |c'.members| == |st.channels[cid].members| + 1
      && c'.members[..|c'.members| - 1] == st.channels[cid].members
      && c'.members[|c'.members| - 1].user == caller
      && c'.members[|c'.members| - 1].role != Admin
      && IsMember(c', caller)
  {
    var c' := Accept(st, caller, cid, now).res.value;
    assert c'.members[|c'.members| - 1].user == caller;
  }

  /** After accepting, the channel is on the caller's list. */
  lemma AcceptListsChannel(st: Store, caller: UserId, cid: ChannelId, now: int)
    requires Accept(st, caller, cid, now).res.Ok?
    ensures cid in MyChannels(Accept(st, caller, cid, now).st, caller)
  {
    AcceptAddsOneMember(st, caller, cid, now);
  }

  /** A channel has at most one pending invitation per email address. */
  ghost predicate PendingUnique(c: Channel) {
    forall i, j :: 0 <= i < j < |c.invitations| && c.invitations[i].status == Pending && c.invitations[j].status == Pending
      ==> c.invitations[i].email != c.invitations[j].email
  }

  /** Invite never creates a second pending invitation for a (channel, email) pair. */
  lemma InviteKeepsPendingUnique(st: Store, caller: UserId, cid: ChannelId, req: InviteRequest, now: int)
    requires cid in st.channels && PendingUnique(st.channels[cid])
    ensures var r := Invite(st, caller, cid, req, now);
      cid in r.st.channels && PendingUnique(r.st.channels[cid])
  {
    var r := Invite(st, caller, cid, req, now);
    if r.res.Ok? {
      var c := st.channels[cid];
      var c' := r.st.channels[cid];
      assert c'.invitations == c.invitations + [r.res.value];
      forall i, j | 0 <= i < j < |c'.invitations| && c'.invitations[i].status == Pending && c'.invitations[j].status == Pending
        ensures c'.invitations[i].email != c'.invitations[j].email
      {
        if j == |c.invitations| {
          assert c'.invitations[i] == c.invitations[i];
          assert !HasPending(c, req.email.value);
        } else {
          assert c'.invitations[i] == c.invitations[i] && c'.invitations[j] == c.invitations[j];
        }
      }
    }
  }

  /** With at most one pending invitation per email, an accept cannot be repeated: the
      second finds nothing pending, answers 404 and adds no member. */
  lemma AcceptNotRepeatable(st: Store, caller: UserId, cid: ChannelId, now: int, later: int)
    requires cid in st.channels && PendingUnique(st.channels[cid])
    requires Accept(st, caller, cid, now).res.Ok?
    ensures var st' := Accept(st, caller, cid, now).st;
      Accept(st', caller, cid, later) == Reply(st', Err(NotFound))
  {
    var c := st.channels[cid];
    var email := st.users[FindUser(st.users, caller).value].email;
    var k := FindPending(c, email).value;
    var st' := Accept(st, caller, cid, now).st;
    var c' := st'.channels[cid];
    assert c'.invitations[k].status == Accepted;
  }

  // ---------------------------------------------------------------- pending invitations

  /** One entry of GET /invitations/pending. */
  datatype PendingEntry = PendingEntry(
    channelId: ChannelId,
    channelName: string,
    channelDescription: string,
    eventType: EventType,
    admin: UserId,
    role: InviteRole,
    invitedAt: int,
    invitedBy: UserId)

  function Entry(c: Channel, k: nat): PendingEntry
    requires k < |c.invitations|
  {
    PendingEntry(c.id, c.name, c.description, c.eventType, c.admin,
                 c.invitations[k].role, c.invitations[k].invitedAt, c.invitations[k].invitedBy)
  }

  /** The database filter as written: one condition on `invitations.email` and one on
      `invitations.status`, which different elements of the array may satisfy. */
  predicate QueryMatches(c: Channel, email: string) {
    && (exists i :: 0 <= i < |c.invitations| && c.invitations[i].email == email)
    && (exists j :: 0 <= j < |c.invitations| && c.invitations[j].status == Pending)
  }

  /** GET /invitations/pending as written.  A caller with no user document fails on reading
      its email (500).  For each matched channel the entry reads the first invitation that is
      both pending and the caller's; in a channel matched through two different invitations
      there is none, and reading its role throws, failing the whole listing (500). */
  function PendingInvitationsAsWritten(st: Store, uid: UserId): (r: Result<set<PendingEntry>>)
    ensures FindUser(st.users, uid).None? ==> r == Err(ServerError)
    ensures FindUser(st.users, uid).Some? ==>
      var email := st.users[FindUser(st.users, uid).value].email;
      (r.Err? <==> exists cid :: cid in st.channels && QueryMatches(st.channels[cid], email) && !HasPending(st.channels[cid], email))
    ensures r.Err? ==> r.error == ServerError
  {
    match FindUser(st.users, uid)
    case None => Err(ServerError)
    case Some(u) =>
      var email := st.users[u].email;
      if exists cid :: cid in st.channels && QueryMatches(st.channels[cid], email) && !HasPending(st.channels[cid], email)
      then Err(ServerError)
      else Ok(set cid | cid in st.channels && QueryMatches(st.channels[cid], email)
                :: Entry(st.channels[cid], FindPending(st.channels[cid], st.users[u].email).value))
  }

  /** The listing as evidently intended (an `$elemMatch` on both conditions): the channels
      holding an invitation that is pending and addressed to the caller. */
  function PendingInvitations(st: Store, uid: UserId): (r: Result<set<PendingEntry>>)
    ensures FindUser(st.users, uid).None? <==> r.Err?
  {
    match FindUser(st.users, uid)
    case None => Err(ServerError)
    case Some(u) =>
      var email := st.users[u].email;
      Ok(set cid | cid in st.channels && HasPending(st.channels[cid], email)
           :: Entry(st.channels[cid], FindPending(st.channels[cid], email).value))
  }

  /** Every channel holding an invitation pending for the caller has its entry in the
      corrected listing, and every entry is the entry of such a channel and its first
      pending invitation for the caller. */
  lemma PendingInvitationsExact(st: Store, uid: UserId, cid: ChannelId)
    requires FindUser(st.users, uid).Some?
    requires cid in st.channels
    ensures var email := st.users[FindUser(st.users, uid).value].email;
      var r := PendingInvitations(st, uid).value;
      && (HasPending(st.channels[cid], email) ==>
            Entry(st.channels[cid], FindPending(st.channels[cid], email).value) in r)
      && (forall e :: e in r ==>
            exists c :: c in st.channels && HasPending(st.channels[c], email) &&
              e == Entry(st.channels[c], FindPending(st.channels[c], email).value))
  {
  }

  /** Where the listing as written succeeds, it returns what the corrected listing does. */
  lemma PendingAsWrittenAgreesWhenOk(st: Store, uid: UserId)
    requires PendingInvitationsAsWritten(st, uid).Ok?
    ensures PendingInvitationsAsWritten(st, uid) == PendingInvitations(st, uid)
  {
    var u := FindUser(st.users, uid).value;
    var email := st.users[u].email;
    forall cid | cid in st.channels ensures QueryMatches(st.channels[cid], email) <==> HasPending(st.channels[cid], email) {
      if HasPending(st.channels[cid], email) {
        var i :| 0 <= i < |st.channels[cid].invitations| && st.channels[cid].invitations[i].email == email
          && st.channels[cid].invitations[i].status == Pending;
        assert QueryMatches(st.channels[cid], email);
      }
    }
    var a := set cid | cid in st.channels && QueryMatches(st.channels[cid], email)
               :: Entry(st.channels[cid], FindPending(st.channels[cid], email).value);
    var b := set cid | cid in st.channels && HasPending(st.channels[cid], email)
               :: Entry(st.channels[cid], FindPending(st.channels[cid], email).value);
    assert a == b;
  }

  /** The discrepancy: the caller accepted an invitation earlier, and someone else now has a
      pending one in the same channel.  The listing as written fails with 500; the corrected
      listing is empty. */
  lemma PendingAsWrittenFailsOnMixedInvitations()
    ensures var alice := NewUser("u1", "g1", "alice@example.com", "Alice", "");
      var ch := Channel("c1", "Launch", "", Other, "u0", [Membership("u0", Admin, 0), Membership("u1", Volunteer, 2)],
        [Invitation("alice@example.com", InviteVolunteer, Accepted, "u0", 1),
         Invitation("bob@example.com", InviteVolunteer, Pending, "u0", 3)], DefaultPlan, Planning);
      var st := Store([alice], map["c1" := ch], [], [], []);
      && PendingInvitationsAsWritten(st, "u1") == Err(ServerError)
      && PendingInvitations(st, "u1") == Ok({})
  {
    var alice := NewUser("u1", "g1", "alice@example.com", "Alice", "");
    var ch := Channel("c1", "Launch", "", Other, "u0", [Membership("u0", Admin, 0), Membership("u1", Volunteer, 2)],
      [Invitation("alice@example.com", InviteVolunteer, Accepted, "u0", 1),
       Invitation("bob@example.com", InviteVolunteer, Pending, "u0", 3)], DefaultPlan, Planning);
    var st := Store([alice], map["c1" := ch], [], [], []);
    assert FindUser(st.users, "u1") == Some(0);
    var email := "alice@example.com";
    assert st.users[0].email == email;
    assert ch.invitations[0].email == email;
    assert ch.invitations[1].status == Pending;
    assert ch.invitations[1].email != email;
    assert st.channels["c1"] == ch;
    assert QueryMatches(st.channels["c1"], email) && !HasPending(st.channels["c1"], email);
    assert PendingInvitationsAsWritten(st, "u1") == Err(ServerError);
    assert forall cid | cid in st.channels :: !HasPending(st.channels[cid], email);
    var listed := PendingInvitations(st, "u1").value;
    assert listed == {};
  }

  // ---------------------------------------------------------------- messages

  function CreatedAt(m: Message): int {
    m.createdAt
  }

  /** `Message.find({ channel })` in insertion order. */
  function ChannelMessages(messages: seq<Message>, cid: ChannelId): (r: seq<Message>)
    ensures forall i :: 0 <= i < |r| ==> r[i].channel == cid
  {
    Filter(messages, (m: Message) => m.channel == cid)
  }

  /** The channel's messages in ascending creation order. */
  function Chronological(messages: seq<Message>, cid: ChannelId): (r: seq<Message>)
    ensures multiset(r) == multiset(ChannelMessages(messages, cid))
    ensures SortedBy(r, CreatedAt)
  {
    SortBy(ChannelMessages(messages, cid), CreatedAt)
  }

  const MessageLimit: nat := 100

  /** GET /:channelId/messages as written: an existing channel (404) of which the caller is a
      member (403, unpopulated test); then ascending by creation time, limited to 100, which
      yields the OLDEST hundred. */
  function ListMessagesAsWritten(st: Store, uid: UserId, cid: ChannelId): (r: Result<seq<Message>>)
    ensures cid !in st.channels ==> r == Err(NotFound)
    ensures cid in st.channels ==> (r.Ok? <==> IsMember(st.channels[cid], uid))
    ensures r.Ok? ==> r.value <= Chronological(st.messages, cid) && |r.value| <= MessageLimit
  {
    if cid !in st.channels then Err(NotFound)
    else if !IsMember(st.channels[cid], uid) then Err(Forbidden)
    else Ok(Take(Chronological(st.messages, cid), MessageLimit))
  }

  /** The message listing as evidently intended by its own comment: the latest hundred, still
      in ascending order. */
  function ListMessages(st: Store, uid: UserId, cid: ChannelId): (r: Result<seq<Message>>)
    ensures cid !in st.channels ==> r == Err(NotFound)
    ensures cid in st.channels ==> (r.Ok? <==> IsMember(st.channels[cid], uid))
    ensures r.Ok? ==> |r.value| <= MessageLimit
  {
    if cid !in st.channels then Err(NotFound)
    else if !IsMember(st.channels[cid], uid) then Err(Forbidden)
    else Ok(TakeLast(Chronological(st.messages, cid), MessageLimit))
  }

  /** The listing as written returns the oldest messages: every message of the channel it
      leaves out is at least as new as every one it returns. */
  lemma ListMessagesAsWrittenIsOldest(st: Store, uid: UserId, cid: ChannelId)
    requires ListMessagesAsWritten(st, uid, cid).Ok?
    ensures var all := Chronological(st.messages, cid);
      var r := ListMessagesAsWritten(st, uid, cid).value;
      && SortedBy(r, CreatedAt)
      && |r| == (if |all| < MessageLimit then |all| else MessageLimit)
      && forall i, j :: 0 <= i < |r| <= j < |all| ==> r[i].createdAt <= all[j].createdAt
  {
  }

  /** The corrected listing returns the newest messages, in ascending order: every message it
      leaves out is at most as new as every one it returns. */
  lemma ListMessagesIsLatest(st: Store, uid: UserId, cid: ChannelId)
    requires ListMessages(st, uid, cid).Ok?
    ensures var all := Chronological(st.messages, cid);
      var r := ListMessages(st, uid, cid).value;
      && SortedBy(r, CreatedAt)
      && |r| == (if |all| < MessageLimit then |all| else MessageLimit)
      && r == all[|all| - |r|..]
      && forall i, j :: 0 <= j < |all| - |r| && 0 <= i < |r| ==> all[j].createdAt <= r[i].createdAt
  {
    var all := Chronological(st.messages, cid);
    var r := ListMessages(st, uid, cid).value;
    assert r == all[|all| - |r|..];
  }

  /** The discrepancy: once a channel holds more than a hundred messages, its newest message
      (strictly newer than the rest) is missing from the listing as written and present in
      the corrected one. */
  lemma ListMessagesAsWrittenDropsNewest(st: Store, uid: UserId, cid: ChannelId, p: nat)
    requires cid in st.channels && IsMember(st.channels[cid], uid)
    requires |ChannelMessages(st.messages, cid)| > MessageLimit
    requires 0 <= p < |ChannelMessages(st.messages, cid)|
    requires forall i :: 0 <= i < |ChannelMessages(st.messages, cid)| && i != p ==>
      ChannelMessages(st.messages, cid)[i].createdAt < ChannelMessages(st.messages, cid)[p].createdAt
    ensures ChannelMessages(st.messages, cid)[p] !in ListMessagesAsWritten(st, uid, cid).value
    ensures ChannelMessages(st.messages, cid)[p] in ListMessages(st, uid, cid).value
  {
    var ms := ChannelMessages(st.messages, cid);
    var all := Chronological(st.messages, cid);
    UniqueMaxIsLast(all, ms, CreatedAt, p);
    var old100 := ListMessagesAsWritten(st, uid, cid).value;
    assert old100 == all[..MessageLimit];
    var latest := ListMessages(st, uid, cid).value;
    assert latest == all[|all| - MessageLimit..];
    assert latest[MessageLimit - 1] == ms[p];
  }

  datatype MessageRequest = MessageRequest(content: Option<string>, msgType: Option<string>)

  /** `channel.members.map(m => m.user.telegramId).filter(id => id && id !== '')` on populated
      members: a member whose user does not resolve is null and reading it throws (500). */
  function MemberTelegramIds(users: seq<User>, members: seq<Membership>): (r: Result<seq<string>>)
    ensures MembersResolve(users, members) <==> r.Ok?
    ensures r.Ok? ==> forall i :: 0 <= i < |r.value| ==> r.value[i] != ""
    decreases |members|
  {
    if |members| == 0 then Ok([])
    else match FindUser(users, members[0].user)
      case None => Err(ServerError)
      case Some(k) =>
        var rest := MemberTelegramIds(users, members[1..]);
        assert MembersResolve(users, members[1..]) <==> MembersResolve(users, members) by {
          if MembersResolve(users, members[1..]) {
            forall i | 0 <= i < |members| ensures FindUser(users, members[i].user).Some? {
              if i > 0 { assert members[i] == members[1..][i - 1]; }
            }
          }
          if MembersResolve(users, members) {
            forall i | 0 <= i < |members[1..]| ensures FindUser(users, members[1..][i].user).Some? {
              assert members[1..][i] == members[i + 1];
            }
          }
        }
        match rest
        case Err(e) => Err(e)
        case Ok(ids) => Ok(if users[k].telegramId != "" then [users[k].telegramId] + ids else ids)
  }

  /** The telegram id of every member with a bot contact is on the list, once for each time the
      member is listed: the list is not deduplicated. */
  lemma {:induction false} MemberTelegramIdsCount(users: seq<User>, members: seq<Membership>)
    requires MembersResolve(users, members)
    ensures |MemberTelegramIds(users, members).value|
      == Count(members, (m: Membership) => FindUser(users, m.user).Some? && HasContact(users[FindUser(users, m.user).value]))
    decreases |members|
  {
    if |members| > 0 {
      assert MembersResolve(users, members[1..]) by {
        forall i | 0 <= i < |members[1..]| ensures FindUser(users, members[1..][i].user).Some? {
          assert members[1..][i] == members[i + 1];
        }
      }
      MemberTelegramIdsCount(users, members[1..]);
    }
  }

  /** POST /:channelId/messages.  Falsy content is refused (400), then the channel (404) and a
      populated membership test (403; 500 on a dangling member).  The type defaults to text;
      one outside the enum fails validation on save (500).  After the message is stored the
      members' telegram ids are collected, and when there are any the channel notification
      goes out to all of them; a dangling member at that point answers 500, with the message
      already stored. */
  function SendMessage(st: Store, caller: UserId, cid: ChannelId, req: MessageRequest, id: MessageId, env: Env): (r: Reply<Message>)
    ensures !Truthy(req.content) ==> r == Reply(st, Err(BadRequest))
    ensures Truthy(req.content) && cid !in st.channels ==> r == Reply(st, Err(NotFound))
    ensures r.res.Ok? ==>
      && cid in st.channels && IsMember(st.channels[cid], caller)
      && EnumField(req.msgType, Text, ParseMessageType).Ok?
      && r.res.value == Message(id, cid, Some(caller), req.content.value,
                                EnumField(req.msgType, Text, ParseMessageType).value, false, env.now)
      && r.st.messages == st.messages + [r.res.value]
      && r.st.users == st.users && r.st.channels == st.channels && r.st.tasks == st.tasks
      && |r.st.outbox| >= |st.outbox| && r.st.outbox[..|st.outbox|] == st.outbox
    ensures r.res.Err? ==>
      r.st.users == st.users && r.st.channels == st.channels && r.st.tasks == st.tasks && r.st.outbox == st.outbox
  {
    if !Truthy(req.content) then Reply(st, Err(BadRequest))
    else if cid !in st.channels then Reply(st, Err(NotFound))
    else
      var c := st.channels[cid];
      match PopulatedIsMember(st.users, c.members, caller)
      case Err(e) => Reply(st, Err(e))
      case Ok(isMember) =>
        if !isMember then Reply(st, Err(Forbidden))
        else match EnumField(req.msgType, Text, ParseMessageType)
          case Err(e) => Reply(st, Err(e))
          case Ok(t) =>
            var m := Message(id, cid, Some(caller), req.content.value, t, false, env.now);
            var saved := st.(messages := st.messages + [m]);
            match MemberTelegramIds(st.users, c.members)
            case Err(e) => Reply(saved, Err(e))
            case Ok(ids) =>
              if |ids| == 0 then Reply(saved, Ok(m))
              else
                var sender := st.users[FindUser(st.users, caller).value];
                var text := Telegram.FormatChannelMessage(c.name, sender.name, env.timeText, req.content.value);
                Reply(saved.(outbox := st.outbox + Telegram.SendChannelNotification(env.botReady, ids, text)), Ok(m))
  }

  /** With every member resolving and the bot configured, a sent message produces one
      delivery per member with a bot contact, all carrying the same text that quotes the
      message. */
  lemma SendMessageNotifiesContacts(st: Store, caller: UserId, cid: ChannelId, req: MessageRequest, id: MessageId, env: Env)
    requires cid in st.channels && MembersResolve(st.users, st.channels[cid].members)
    requires env.botReady
    requires SendMessage(st, caller, cid, req, id, env).res.Ok?
    ensures var sent := SendMessage(st, caller, cid, req, id, env).st.outbox[|st.outbox|..];
      var c := st.channels[cid];
      && |sent| == Count(c.members, (m: Membership) => FindUser(st.users, m.user).Some? && HasContact(st.users[FindUser(st.users, m.user).value]))
      && forall i :: 0 <= i < |sent| ==> sent[i].to != "" && sent[i].text == Telegram.FormatChannelMessage(
           c.name, st.users[FindUser(st.users, caller).value].name, env.timeText, req.content.value)
  {
    MemberTelegramIdsCount(st.users, st.channels[cid].members);
  }

  /** A member posting content of a valid type, in a channel whose members all resolve, is
      answered with the stored message. */
  lemma SendMessageSucceedsForMembers(st: Store, caller: UserId, cid: ChannelId, req: MessageRequest, id: MessageId, env: Env)
    requires Truthy(req.content) && cid in st.channels && MembersResolve(st.users, st.channels[cid].members)
    requires IsMember(st.channels[cid], caller) && EnumField(req.msgType, Text, ParseMessageType).Ok?
    ensures SendMessage(st, caller, cid, req, id, env).res.Ok?
  {
    PopulatedIsMemberAgrees(st.users, st.channels[cid], caller);
  }

  /** The refusals of the message route after the content check, in order: a dangling member
      met by the populated scan (500), a non-member (403), a type outside the enum (500);
      none of them stores anything. */
  lemma SendMessageRefusals(st: Store, caller: UserId, cid: ChannelId, req: MessageRequest, id: MessageId, env: Env)
    requires Truthy(req.content) && cid in st.channels
    ensures var scan := PopulatedIsMember(st.users, st.channels[cid].members, caller);
      var r := SendMessage(st, caller, cid, req, id, env);
      && (scan.Err? ==> r == Reply(st, Err(ServerError)))
      && (scan == Ok(false) ==> r == Reply(st, Err(Forbidden)))
      && (scan == Ok(true) && EnumField(req.msgType, Text, ParseMessageType).Err? ==> r == Reply(st, Err(ServerError)))
  {
  }
}

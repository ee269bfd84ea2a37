/** The message list of src/components/GlobalChat.jsx: incoming socket messages appended at
    most once, the optimistic send with its temporary entry, and the time label.  The
    socket and the HTTP request are outside this model: their outcomes are parameters. */
module Chat {
  import opened Wrappers
  import opened Text
  import opened Models

  /** The delivery state the client attaches to its own messages. */
  datatype Delivery = Sending | Sent | Failed

  /** One entry of the list: a server message, or a temporary one for a send in flight. */
  datatype ChatEntry = ChatEntry(id: MessageId, content: string, sender: Option<UserId>, createdAt: int,
                                 status: Option<Delivery>)

  predicate HasEntry(list: seq<ChatEntry>, id: MessageId) {
    exists i :: 0 <= i < |list| && list[i].id == id
  }

  ghost predicate UniqueIds(list: seq<ChatEntry>) {
    forall i, j :: 0 <= i < j < |list| ==> list[i].id != list[j].id
  }

  /** The `new-message` handler: a message for another channel, or one whose id is already
      listed, leaves the list as it is; otherwise it is appended. */
  function Incoming(list: seq<ChatEntry>, open: ChannelId, eventChannel: ChannelId, m: ChatEntry): (r: seq<ChatEntry>)
    ensures eventChannel != open ==> r == list
    ensures eventChannel == open ==> HasEntry(r, m.id)
    ensures r == list || (r == list + [m] && !HasEntry(list, m.id))
  {
    if eventChannel != open || HasEntry(list, m.id) then list
    else
      assert (list + [m])[|list|].id == m.id;
      list + [m]
  }

  /** Delivering the same event twice has the effect of delivering it once. */
  lemma IncomingIdempotent(list: seq<ChatEntry>, open: ChannelId, eventChannel: ChannelId, m: ChatEntry)
    ensures var once := Incoming(list, open, eventChannel, m);
      Incoming(once, open, eventChannel, m) == once
  {
  }

  /** Incoming messages never make two entries share an id. */
  lemma IncomingKeepsIdsUnique(list: seq<ChatEntry>, open: ChannelId, eventChannel: ChannelId, m: ChatEntry)
    requires UniqueIds(list)
    ensures UniqueIds(Incoming(list, open, eventChannel, m))
  {
  }

  /** The id of the temporary entry: `temp-` and the clock in milliseconds. */
  function TempId(now: nat): MessageId {
    "temp-" + NatToString(now)
  }

  /** The list, the draft, and the text handed to the send request, if any. */
  datatype SendStart = SendStart(list: seq<ChatEntry>, draft: string, request: Option<string>)

  /** The synchronous part of handleSendMessage: a draft that trims to nothing sends
      nothing; otherwise the untrimmed draft is appended as a temporary entry in state
      sending, the draft is cleared and the text is sent. */
  function StartSend(list: seq<ChatEntry>, draft: string, user: UserId, now: nat): (r: SendStart)
    ensures IsBlank(draft) ==> r == SendStart(list, draft, None)
    ensures !IsBlank(draft) ==>
      r == SendStart(list + [ChatEntry(TempId(now), draft, Some(user), now, Some(Sending))], "", Some(draft))
  {
    TrimEmptyIffBlank(draft);
    if Trim(draft) == "" then SendStart(list, draft, None)
    else SendStart(list + [ChatEntry(TempId(now), draft, Some(user), now, Some(Sending))], "", Some(draft))
  }

  /** The entry that takes the place of the temporary one. */
  function Resolved(temp: ChatEntry, response: Result<ChatEntry>): ChatEntry {
    match response
    case Ok(m) => m.(status := Some(Sent))
    case Err(_) => temp.(status := Some(Failed))
  }

  /** The asynchronous part: every entry with the temporary id becomes the server's message
      marked sent, or is marked failed; the others are untouched. */
  function ResolveSend(list: seq<ChatEntry>, tempId: MessageId, response: Result<ChatEntry>): (r: seq<ChatEntry>)
    ensures |r| == |list|
    ensures forall i :: 0 <= i < |list| && list[i].id != tempId ==> r[i] == list[i]
    ensures forall i :: 0 <= i < |list| && list[i].id == tempId ==> r[i] == Resolved(list[i], response)
  {
    seq(|list|, i requires 0 <= i < |list| => if list[i].id == tempId then Resolved(list[i], response) else list[i])
  }

  /** A send whose temporary id was not yet listed ends with exactly one new entry, at the
      end: the server's message marked sent, or the temporary entry marked failed. */
  lemma SendRoundTrip(list: seq<ChatEntry>, draft: string, user: UserId, now: nat, response: Result<ChatEntry>)
    requires !IsBlank(draft) && !HasEntry(list, TempId(now))
    ensures var s := StartSend(list, draft, user, now);
      ResolveSend(s.list, TempId(now), response)
        == list + [Resolved(ChatEntry(TempId(now), draft, Some(user), now, Some(Sending)), response)]
  {
    var s := StartSend(list, draft, user, now);
    var r := ResolveSend(s.list, TempId(now), response);
    var temp := ChatEntry(TempId(now), draft, Some(user), now, Some(Sending));
    forall i | 0 <= i < |list| ensures r[i] == list[i] {
      assert s.list[i] == list[i];
    }
    assert r[|list|] == Resolved(temp, response);
  }

  /** Messages sent within the same millisecond share a temporary id, so the first answer
      replaces both entries. */
  lemma SameMillisecondSendsShareEntry(list: seq<ChatEntry>, a: string, b: string, user: UserId, now: nat, m: ChatEntry)
    requires !IsBlank(a) && !IsBlank(b)
    ensures var s1 := StartSend(list, a, user, now);
      var s2 := StartSend(s1.list, b, user, now);
      var r := ResolveSend(s2.list, TempId(now), Ok(m));
      |r| == |list| + 2 && r[|list|] == r[|list| + 1] == m.(status := Some(Sent))
  {
  }

  /** The kind of label formatMessageTime shows: the time of day, "Yesterday", or the
      calendar date (the formatting itself depends on the local time zone). */
  datatype TimeLabel = TimeOfDay(at: int) | Yesterday | CalendarDate(at: int)

  const MsPerHour: int := 3600000

  /** Under 24 hours old (or in the future) shows the time, under 48 hours "Yesterday",
      anything older the date.  The age in hours is a real quotient, so comparing it with
      24 is comparing the age in milliseconds with 24 hours. */
  function FormatMessageTime(now: int, timestamp: int): (r: TimeLabel)
    ensures r.TimeOfDay? <==> now - timestamp < 24 * MsPerHour
    ensures r.Yesterday? <==> 24 * MsPerHour <= now - timestamp < 48 * MsPerHour
    ensures r.CalendarDate? <==> 48 * MsPerHour <= now - timestamp
  {
    var diff := now - timestamp;
    if diff < 24 * MsPerHour then TimeOfDay(timestamp)
    else if diff < 48 * MsPerHour then Yesterday
    else CalendarDate(timestamp)
  }

  function Coarseness(l: TimeLabel): nat {
    match l
    case TimeOfDay(_) => 0
    case Yesterday => 1
    case CalendarDate(_) => 2
  }

  /** An older message never gets a finer label than a newer one. */
  lemma OlderIsCoarser(now: int, older: int, newer: int)
    requires older <= newer
    ensures Coarseness(FormatMessageTime(now, older)) >= Coarseness(FormatMessageTime(now, newer))
  {
  }
}

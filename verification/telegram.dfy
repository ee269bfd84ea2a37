/** The notification helpers of server/services/telegramService.js.  The bot is an
    opaque sink: a send is recorded as a `Delivery` attempt, and since every send
    failure is caught and logged inside the service, no outcome reaches the caller. */
module Telegram {
  import opened Wrappers
  import opened Text

  datatype Delivery = Delivery(to: string, text: string)

  /** sendTaskUpdate: nothing is attempted when the bot is not configured or the
      recipient id is empty; otherwise one message to that id. */
  function SendTaskUpdate(botReady: bool, telegramId: string, text: string): (r: seq<Delivery>)
    ensures !botReady || telegramId == "" ==> r == []
    ensures botReady && telegramId != "" ==> r == [Delivery(telegramId, text)]
  {
    if !botReady || telegramId == "" then [] else [Delivery(telegramId, text)]
  }

  /** sendChannelNotification: one text, attempted once for every id of the list, in
      list order (an id listed twice is sent to twice). */
  function SendChannelNotification(botReady: bool, telegramIds: seq<string>, text: string): (r: seq<Delivery>)
    ensures !botReady || |telegramIds| == 0 ==> r == []
    ensures botReady ==> |r| == |telegramIds|
    ensures botReady ==> forall i :: 0 <= i < |r| ==> r[i] == Delivery(telegramIds[i], text)
  {
    if !botReady || |telegramIds| == 0 then []
    else seq(|telegramIds|, i requires 0 <= i < |telegramIds| => Delivery(telegramIds[i], text))
  }

  /** Every attempt of a channel notification carries the same text, and every listed id
      receives one. */
  lemma ChannelNotificationReachesEveryId(telegramIds: seq<string>, text: string, id: string)
    requires id in telegramIds
    ensures Delivery(id, text) in SendChannelNotification(true, telegramIds, text)
  {
    var i :| 0 <= i < |telegramIds| && telegramIds[i] == id;
    assert SendChannelNotification(true, telegramIds, text)[i] == Delivery(id, text);
  }

  const TodoEmoji: string := "\U{1F4DD}"
  const InProgressEmoji: string := "\U{23F3}"
  const ReviewEmoji: string := "\U{1F440}"
  const CompletedEmoji: string := "\U{2705}"
  const BlockedEmoji: string := "\U{1F6AB}"
  const DefaultEmoji: string := "\U{1F4CC}"

  /** getStatusEmoji: `emojis[status] || '\U{1F4CC}'` over a table of five statuses.  A name
      inherited from Object.prototype finds a function, which the message template prints
      as its source text. */
  function GetStatusEmoji(status: string): (e: string)
    ensures '\n' !in e
  {
    if status == "todo" then TodoEmoji
    else if status == "in-progress" then InProgressEmoji
    else if status == "review" then ReviewEmoji
    else if status == "completed" then CompletedEmoji
    else if status == "blocked" then BlockedEmoji
    else if Inherited(status) then InheritedText(status)
    else DefaultEmoji
  }

  /** The pin is shown exactly for a status that is neither in the table nor inherited from
      Object.prototype; an inherited name shows that member's source text instead. */
  lemma StatusEmojiTable(status: string)
    ensures GetStatusEmoji(status) == DefaultEmoji <==>
      status !in {"todo", "in-progress", "review", "completed", "blocked"} && !Inherited(status)
    ensures Inherited(status) ==> GetStatusEmoji(status) == InheritedText(status)
  {
    var e := GetStatusEmoji(status);
    if status in {"todo", "in-progress", "review", "completed", "blocked"} {
      assert e in {TodoEmoji, InProgressEmoji, ReviewEmoji, CompletedEmoji, BlockedEmoji};
      assert e[0] != DefaultEmoji[0];
    } else if Inherited(status) {
      assert |e| > 1;
    }
  }

  /** The five statuses of the table get five different emoji. */
  lemma StatusEmojiDistinct()
    ensures |{GetStatusEmoji("todo"), GetStatusEmoji("in-progress"), GetStatusEmoji("review"),
              GetStatusEmoji("completed"), GetStatusEmoji("blocked")}| == 5
  {
  }

  /** The status the task route writes for a finished task is not in the table. */
  lemma DoneGetsDefaultEmoji()
    ensures GetStatusEmoji("done") == DefaultEmoji
  {
  }

  /** `${x ? `<heading>${x}` : ''}`: a labelled line for a present, non-empty field. */
  function OptionalLine(heading: string, x: Option<string>): string {
    if Truthy(x) then heading + x.value else ""
  }

  const DescriptionLabel: string := "\U{1F4DD} *Description:* "
  const PriorityLabel: string := "\U{26A1} *Priority:* "

  /** The nine lines of a task-update message. */
  function TaskUpdateLines(title: string, userName: string, oldStatus: string, newStatus: string,
                           time: string, description: Option<string>, priority: Option<string>): (lines: seq<string>)
    ensures |lines| == 9
  {
    [ "\U{1F514} *Task Update*",
      "",
      "\U{1F4CB} *Task:* " + title,
      "\U{1F464} *Member:* " + userName,
      StatusLine(oldStatus, newStatus),
      "\U{1F4C5} *Time:* " + time,
      "",
      OptionalLine(DescriptionLabel, description),
      OptionalLine(PriorityLabel, priority) ]
  }

  /** formatTaskUpdateMessage, with `time` the locale rendering of the timestamp: the
      template literal is the nine lines above separated by line feeds. */
  function FormatTaskUpdateMessage(title: string, userName: string, oldStatus: string, newStatus: string,
                                   time: string, description: Option<string>, priority: Option<string>): string
  {
    Join(TaskUpdateLines(title, userName, oldStatus, newStatus, time, description, priority), "\n")
  }

  /** When no field contains a line break, the message splits back into its nine lines:
      the title on the third, the updater on the fourth, "old -> new" on the fifth, and the
      description and priority lines present exactly when those fields are. */
  lemma TaskUpdateLayout(title: string, userName: string, oldStatus: string, newStatus: string,
                         time: string, description: Option<string>, priority: Option<string>)
    requires '\n' !in title && '\n' !in userName && '\n' !in oldStatus && '\n' !in newStatus && '\n' !in time
    requires description.Some? ==> '\n' !in description.value
    requires priority.Some? ==> '\n' !in priority.value
    ensures var lines := Split(FormatTaskUpdateMessage(title, userName, oldStatus, newStatus, time, description, priority), '\n');
      && lines == TaskUpdateLines(title, userName, oldStatus, newStatus, time, description, priority)
      && lines[2] == "\U{1F4CB} *Task:* " + title
      && lines[4] == GetStatusEmoji(newStatus) + " *Status:* " + oldStatus + " \U{2192} *" + newStatus + "*"
      && (lines[7] == "" <==> !Truthy(description))
      && (lines[8] == "" <==> !Truthy(priority))
  {
    TaskUpdateLinesUnbroken(title, userName, oldStatus, newStatus, time, description, priority);
    SplitJoin(TaskUpdateLines(title, userName, oldStatus, newStatus, time, description, priority), '\n');
  }

  /** The fifth line: the new status's emoji, then "old \U{2192} new". */
  function StatusLine(oldStatus: string, newStatus: string): string {
    GetStatusEmoji(newStatus) + " *Status:* " + oldStatus + " \U{2192} *" + newStatus + "*"
  }

  lemma StatusLineUnbroken(oldStatus: string, newStatus: string)
    requires '\n' !in oldStatus && '\n' !in newStatus
    ensures '\n' !in StatusLine(oldStatus, newStatus)
  {
    var e := GetStatusEmoji(newStatus);
    assert '\n' !in e;
    FreeConcat(e, " *Status:* ", '\n');
    FreeConcat(e + " *Status:* ", oldStatus, '\n');
    FreeConcat(e + " *Status:* " + oldStatus, " \U{2192} *", '\n');
    FreeConcat(e + " *Status:* " + oldStatus + " \U{2192} *", newStatus, '\n');
    FreeConcat(e + " *Status:* " + oldStatus + " \U{2192} *" + newStatus, "*", '\n');
  }

  lemma TaskUpdateLinesUnbroken(title: string, userName: string, oldStatus: string, newStatus: string,
                                time: string, description: Option<string>, priority: Option<string>)
    requires '\n' !in title && '\n' !in userName && '\n' !in oldStatus && '\n' !in newStatus && '\n' !in time
    requires description.Some? ==> '\n' !in description.value
    requires priority.Some? ==> '\n' !in priority.value
    ensures var l := TaskUpdateLines(title, userName, oldStatus, newStatus, time, description, priority);
      forall i :: 0 <= i < |l| ==> '\n' !in l[i]
  {
    var l := TaskUpdateLines(title, userName, oldStatus, newStatus, time, description, priority);
    FreeConcat("\U{1F4CB} *Task:* ", title, '\n');
    FreeConcat("\U{1F464} *Member:* ", userName, '\n');
    FreeConcat("\U{1F4C5} *Time:* ", time, '\n');
    StatusLineUnbroken(oldStatus, newStatus);
    if Truthy(description) {
      FreeConcat(DescriptionLabel, description.value, '\n');
    }
    if Truthy(priority) {
      FreeConcat(PriorityLabel, priority.value, '\n');
    }
  }

  /** formatChannelMessage: a five-line header naming the channel, the sender and the time,
      followed by the message text as it is. */
  function FormatChannelMessage(channelName: string, userName: string, time: string, message: string): string {
    ChannelMessageHeader(channelName, userName, time) + message
  }

  function ChannelMessageHeader(channelName: string, userName: string, time: string): string {
    "\U{1F4AC} *New Message in " + channelName + "*\n\n\U{1F464} *From:* " + userName
      + "\n\U{1F4C5} *Time:* " + time + "\n\n\U{1F4AD} *Message:*\n"
  }

  /** The channel message quotes the message text at its end and names the channel and
      the sender. */
  lemma ChannelMessageQuotes(channelName: string, userName: string, time: string, message: string)
    ensures var m := FormatChannelMessage(channelName, userName, time, message);
      && |m| >= |message| && m[|m| - |message|..] == message
      && Includes(m, channelName) && Includes(m, userName)
  {
    var m := FormatChannelMessage(channelName, userName, time, message);
    var h := ChannelMessageHeader(channelName, userName, time);
    assert m[|h|..] == message;
    var a := "\U{1F4AC} *New Message in ";
    IncludesInfix(a, channelName, m[|a| + |channelName|..]);
    assert a + channelName + m[|a| + |channelName|..] == m;
    var b := a + channelName + "*\n\n\U{1F464} *From:* ";
    IncludesInfix(b, userName, m[|b| + |userName|..]);
    assert b + userName + m[|b| + |userName|..] == m;
  }
}

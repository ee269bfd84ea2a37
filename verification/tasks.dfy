/** The task handlers of server/routes/task.js: creating a task, the kanban grouping of
    a channel's tasks, the caller's tasks, the status update with its notification, and
    comments. */
module Tasks {
  import opened Wrappers
  import opened Seqs
  import opened Text
  import opened Models
  import Telegram
  import Channels

  datatype CreateTaskRequest = CreateTaskRequest(
    title: Option<string>,
    description: Option<string>,
    channelId: Option<ChannelId>,
    assignedTo: Option<UserId>,
    priority: Option<string>,
    dueDate: Option<int>,
    estimatedHours: Option<int>,
    tags: Option<seq<string>>)

  /** POST /create.  A title and a channel id are required (400), the channel must exist
      (404) and the caller must be one of its members (403).  The creator is the caller and
      missing tags become the empty list.  The Task schema is not part of this model, so the
      status a new task starts with is supplied as `initialStatus`. */
  function CreateTask(st: Store, caller: UserId, req: CreateTaskRequest, id: TaskId, initialStatus: string, now: int): (r: Reply<Task>)
    ensures r.res.Err? ==> r.st == st
    ensures !Truthy(req.title) || !Truthy(req.channelId) ==> r.res == Err(BadRequest)
    ensures r.res.Ok? <==>
      Truthy(req.title) && Truthy(req.channelId) && req.channelId.value in st.channels
      && IsMember(st.channels[req.channelId.value], caller)
    ensures r.res.Ok? ==>
      var t := r.res.value;
      && t.id == id && t.createdBy == caller && t.channel == req.channelId.value && t.title == req.title.value
      && t.description == req.description && t.assignedTo == req.assignedTo
      && t.priority == req.priority && t.dueDate == req.dueDate && t.estimatedHours == req.estimatedHours
      && t.tags == req.tags.GetOr([]) && t.comments == [] && t.status == initialStatus && t.createdAt == now
      && r.st == st.(tasks := st.tasks + [t])
  {
    if !Truthy(req.title) || !Truthy(req.channelId) then Reply(st, Err(BadRequest))
    else
      var cid := req.channelId.value;
      if cid !in st.channels then Reply(st, Err(NotFound))
      else if !IsMember(st.channels[cid], caller) then Reply(st, Err(Forbidden))
      else
        var t := Task(id, req.title.value, req.description, cid, req.assignedTo, caller, req.priority,
                      req.dueDate, req.estimatedHours, req.tags.GetOr([]), initialStatus, [], now);
        Reply(st.(tasks := st.tasks + [t]), Ok(t))
  }

  // ---------------------------------------------------------------- listing

  /** The four kanban buckets of GET /channel/:channelId. */
  datatype Grouped = Grouped(todo: seq<Task>, inProgress: seq<Task>, review: seq<Task>, done: seq<Task>)

  predicate Unbucketed(t: Task) {
    t.status !in {"todo", "in-progress", "review", "done"}
  }

  function GroupByStatus(tasks: seq<Task>): (g: Grouped)
    ensures forall i :: 0 <= i < |g.todo| ==> g.todo[i].status == "todo" && g.todo[i] in tasks
    ensures forall i :: 0 <= i < |g.inProgress| ==> g.inProgress[i].status == "in-progress" && g.inProgress[i] in tasks
    ensures forall i :: 0 <= i < |g.review| ==> g.review[i].status == "review" && g.review[i] in tasks
    ensures forall i :: 0 <= i < |g.done| ==> g.done[i].status == "done" && g.done[i] in tasks
  {
    Grouped(Filter(tasks, HasStatus("todo")), Filter(tasks, HasStatus("in-progress")),
            Filter(tasks, HasStatus("review")), Filter(tasks, HasStatus("done")))
  }

  function Size(g: Grouped): nat {
    |g.todo| + |g.inProgress| + |g.review| + |g.done|
  }

  /** Every fetched task lands in exactly one bucket, except those with any other status,
      which land in none: the bucket sizes and the unbucketed count add up to the total. */
  lemma {:induction false} GroupingPartitions(tasks: seq<Task>)
    ensures Size(GroupByStatus(tasks)) + Count(tasks, (t: Task) => Unbucketed(t)) == |tasks|
    decreases |tasks|
  {
    if |tasks| > 0 {
      GroupingPartitions(tasks[1..]);
    }
  }

  /** Each bucket keeps the fetched order. */
  lemma GroupingKeepsOrder(tasks: seq<Task>)
    ensures var g := GroupByStatus(tasks);
      && IsSubsequence(g.todo, tasks) && IsSubsequence(g.inProgress, tasks)
      && IsSubsequence(g.review, tasks) && IsSubsequence(g.done, tasks)
  {
    FilterIsSubsequence(tasks, HasStatus("todo"));
    FilterIsSubsequence(tasks, HasStatus("in-progress"));
    FilterIsSubsequence(tasks, HasStatus("review"));
    FilterIsSubsequence(tasks, HasStatus("done"));
  }

  function NewestFirst(t: Task): int {
    -t.createdAt
  }

  /** A channel's tasks, newest first. */
  function ChannelTasks(tasks: seq<Task>, cid: ChannelId): (r: seq<Task>)
    ensures multiset(r) == multiset(Filter(tasks, InChannel(cid)))
    ensures SortedBy(r, NewestFirst)
  {
    SortBy(Filter(tasks, InChannel(cid)), NewestFirst)
  }

  /** GET /channel/:channelId: the channel (404) of which the caller is a member (403); the
      tasks newest first, and grouped by status. */
  function ListChannelTasks(st: Store, uid: UserId, cid: ChannelId): (r: Result<(seq<Task>, Grouped)>)
    ensures cid !in st.channels ==> r == Err(NotFound)
    ensures cid in st.channels ==> (r.Ok? <==> IsMember(st.channels[cid], uid))
    ensures r.Ok? ==> forall i :: 0 <= i < |r.value.0| ==> r.value.0[i].channel == cid
    ensures r.Ok? ==> forall i :: 0 <= i < |st.tasks| && st.tasks[i].channel == cid ==> st.tasks[i] in r.value.0
    ensures r.Ok? ==> multiset(r.value.0) == multiset(Filter(st.tasks, InChannel(cid)))
    ensures r.Ok? ==> SortedBy(r.value.0, NewestFirst) && r.value.1 == GroupByStatus(r.value.0)
  {
    if cid !in st.channels then Err(NotFound)
    else if !IsMember(st.channels[cid], uid) then Err(Forbidden)
    else
      var ts := ChannelTasks(st.tasks, cid);
      assert forall i :: 0 <= i < |ts| ==> ts[i].channel == cid by {
        forall i | 0 <= i < |ts| ensures ts[i].channel == cid {
          assert ts[i] in multiset(Filter(st.tasks, InChannel(cid)));
        }
      }
      assert forall i :: 0 <= i < |st.tasks| && st.tasks[i].channel == cid ==> st.tasks[i] in ts by {
        forall i | 0 <= i < |st.tasks| && st.tasks[i].channel == cid ensures st.tasks[i] in ts {
          assert InChannel(cid)(st.tasks[i]);
          assert st.tasks[i] in multiset(Filter(st.tasks, InChannel(cid)));
        }
      }
      Ok((ts, GroupByStatus(ts)))
  }

  /** GET /my-tasks, as the set of ids of the tasks assigned to the caller (the ordering by
      due date is not modelled). */
  function MyTasks(st: Store, uid: UserId): (r: set<TaskId>)
    ensures forall id :: id in r <==> exists i :: 0 <= i < |st.tasks| && st.tasks[i].id == id && st.tasks[i].assignedTo == Some(uid)
  {
    set i | 0 <= i < |st.tasks| && st.tasks[i].assignedTo == Some(uid) :: st.tasks[i].id
  }

  /** A task created with an assignee is on that user's list. */
  lemma CreatedTaskIsOnAssigneesList(st: Store, caller: UserId, req: CreateTaskRequest, id: TaskId, initialStatus: string, now: int)
    requires req.assignedTo.Some?
    requires CreateTask(st, caller, req, id, initialStatus, now).res.Ok?
    ensures id in MyTasks(CreateTask(st, caller, req, id, initialStatus, now).st, req.assignedTo.value)
  {
    var st' := CreateTask(st, caller, req, id, initialStatus, now).st;
    assert st'.tasks[|st.tasks|].id == id;
  }

  // ---------------------------------------------------------------- status update

  predicate ValidStatus(s: string) {
    s in {"todo", "in-progress", "review", "done"}
  }

  /** Adds each id of `ids` that is non-empty and not yet present, in order. */
  function AddDistinct(acc: seq<string>, ids: seq<string>): seq<string>
    decreases |ids|
  {
    if |ids| == 0 then acc
    else AddDistinct(if ids[0] != "" && ids[0] !in acc then acc + [ids[0]] else acc, ids[1..])
  }

  /** The recipient list of a status update: the assignee's telegram id first when it has
      one, then every member's id not yet on the list. */
  function Recipients(assignee: string, memberIds: seq<string>): seq<string> {
    AddDistinct(if assignee != "" then [assignee] else [], memberIds)
  }

  lemma {:induction false} AddDistinctProperties(acc: seq<string>, ids: seq<string>)
    requires NoDuplicates(acc)
    ensures var r := AddDistinct(acc, ids);
      && NoDuplicates(r)
      && acc <= r
      && forall x :: x in r <==> x in acc || (x in ids && x != "")
    decreases |ids|
  {
    if |ids| > 0 {
      var next := if ids[0] != "" && ids[0] !in acc then acc + [ids[0]] else acc;
      assert NoDuplicates(next) by {
        if ids[0] != "" && ids[0] !in acc {
          forall i, j | 0 <= i < j < |next| ensures next[i] != next[j] {
            if j == |acc| { assert next[i] == acc[i]; }
          }
        }
      }
      AddDistinctProperties(next, ids[1..]);
      assert forall x :: x in ids <==> x == ids[0] || x in ids[1..] by {
        assert ids == [ids[0]] + ids[1..];
      }
    }
  }

  /** The recipient list holds no duplicates and no empty id, starts with the assignee's id
      when there is one, and holds exactly the non-empty ids of the assignee and the members. */
  lemma RecipientsProperties(assignee: string, memberIds: seq<string>)
    ensures var r := Recipients(assignee, memberIds);
      && NoDuplicates(r)
      && (assignee != "" ==> |r| > 0 && r[0] == assignee)
      && forall x :: x in r <==> x != "" && (x == assignee || x in memberIds)
  {
    AddDistinctProperties(if assignee != "" then [assignee] else [], memberIds);
  }

  /** The loop of the status handler that builds the recipient list. */
  method BuildRecipients(assignee: string, memberIds: seq<string>) returns (r: seq<string>)
    ensures r == Recipients(assignee, memberIds)
    ensures NoDuplicates(r)
    ensures assignee != "" ==> |r| > 0 && r[0] == assignee
    ensures forall x :: x in r <==> x != "" && (x == assignee || x in memberIds)
  {
    r := if assignee != "" then [assignee] else [];
    var i := 0;
    while i < |memberIds|
      invariant 0 <= i <= |memberIds|
      invariant AddDistinct(r, memberIds[i..]) == Recipients(assignee, memberIds)
    {
      var id := memberIds[i];
      assert memberIds[i..][1..] == memberIds[i + 1..];
      if id != "" && id !in r {
        r := r + [id];
      }
      i := i + 1;
    }
    RecipientsProperties(assignee, memberIds);
  }

  /** `task.assignedTo?.telegramId` on the populated assignee: empty when there is no
      assignee or the assigned user does not resolve. */
  function AssigneeContact(users: seq<User>, assignedTo: Option<UserId>): string {
    match assignedTo
    case None => ""
    case Some(a) =>
      match FindUser(users, a)
      case None => ""
      case Some(k) => users[k].telegramId
  }

  /** PATCH /:taskId/status.  The status must be one of the four kanban values before
      anything is read (400); then the task (404), its channel (a missing one is read as
      null: 500), and a populated membership test (403; 500 on a dangling member).  The
      status is written without any transition rule.  The recipient list is then built
      (a dangling member answers 500, the status already written) and only its first entry
      is sent the update, which quotes the old and the new status. */
  function UpdateStatus(st: Store, caller: UserId, taskId: TaskId, status: Option<string>, env: Env): (r: Reply<Task>)
    ensures status.None? || !ValidStatus(status.value) ==> r == Reply(st, Err(BadRequest))
    ensures r.res.Err? && r.st != st ==> r.res.error == ServerError
    ensures r.st != st ==>
      && status.Some? && ValidStatus(status.value) && FindTask(st.tasks, taskId).Some?
      && var k := FindTask(st.tasks, taskId).value;
         var t := st.tasks[k];
         && t.channel in st.channels && IsMember(st.channels[t.channel], caller)
         && r.st.tasks == st.tasks[k := t.(status := status.value)]
    ensures r.res.Ok? ==>
      && FindTask(st.tasks, taskId).Some?
      && r.res.value == st.tasks[FindTask(st.tasks, taskId).value].(status := status.value)
      && r.st.tasks == st.tasks[FindTask(st.tasks, taskId).value := r.res.value]
      && r.st.users == st.users && r.st.channels == st.channels && r.st.messages == st.messages
  {
    if status.None? || !ValidStatus(status.value) then Reply(st, Err(BadRequest))
    else match FindTask(st.tasks, taskId)
      case None => Reply(st, Err(NotFound))
      case Some(k) =>
        var t := st.tasks[k];
        var oldStatus := t.status;
        if t.channel !in st.channels then Reply(st, Err(ServerError))
        else
          var c := st.channels[t.channel];
          match PopulatedIsMember(st.users, c.members, caller)
          case Err(e) => Reply(st, Err(e))
          case Ok(isMember) =>
            if !isMember then Reply(st, Err(Forbidden))
            else
              var t' := t.(status := status.value);
              var written := st.(tasks := st.tasks[k := t']);
              match Channels.MemberTelegramIds(st.users, c.members)
              case Err(_) => Reply(written, Err(ServerError))
              case Ok(ids) =>
                var recipients := Recipients(AssigneeContact(st.users, t.assignedTo), ids);
                if |recipients| == 0 then Reply(written, Ok(t'))
                else
                  var updatedBy := st.users[FindUser(st.users, caller).value];
                  var text := Telegram.FormatTaskUpdateMessage(t.title, updatedBy.name, oldStatus, status.value,
                                                               env.timeText, t.description, t.priority);
                  Reply(written.(outbox := st.outbox + Telegram.SendTaskUpdate(env.botReady, recipients[0], text)), Ok(t'))
  }

  /** A status update sends at most one message, and when it sends one it goes to the
      assignee's contact if the assignee has one. */
  lemma UpdateStatusNotifiesFirstOnly(st: Store, caller: UserId, taskId: TaskId, status: Option<string>, env: Env)
    requires UpdateStatus(st, caller, taskId, status, env).res.Ok?
    ensures var out := UpdateStatus(st, caller, taskId, status, env).st.outbox;
      && |out| >= |st.outbox| && out[..|st.outbox|] == st.outbox && |out| <= |st.outbox| + 1
    ensures var out := UpdateStatus(st, caller, taskId, status, env).st.outbox;
      var t := st.tasks[FindTask(st.tasks, taskId).value];
      |out| == |st.outbox| + 1 && AssigneeContact(st.users, t.assignedTo) != "" ==>
        out[|st.outbox|].to == AssigneeContact(st.users, t.assignedTo)
  {
    var k := FindTask(st.tasks, taskId).value;
    var t := st.tasks[k];
    var c := st.channels[t.channel];
    var ids := Channels.MemberTelegramIds(st.users, c.members).value;
    RecipientsProperties(AssigneeContact(st.users, t.assignedTo), ids);
  }

  /** The refusals of the status route after the status check, each leaving the store as it
      was: an unknown task (404), a task whose channel is gone (500), a dangling member met by
      the populated scan (500) and a caller outside the channel (403). */
  lemma UpdateStatusRefusals(st: Store, caller: UserId, taskId: TaskId, status: string, env: Env)
    requires ValidStatus(status)
    ensures var r := UpdateStatus(st, caller, taskId, Some(status), env);
      && (FindTask(st.tasks, taskId).None? ==> r == Reply(st, Err(NotFound)))
      && (FindTask(st.tasks, taskId).Some? ==>
            var t := st.tasks[FindTask(st.tasks, taskId).value];
            && (t.channel !in st.channels ==> r == Reply(st, Err(ServerError)))
            && (t.channel in st.channels ==>
                  var scan := PopulatedIsMember(st.users, st.channels[t.channel].members, caller);
                  && (scan.Err? ==> r == Reply(st, Err(ServerError)))
                  && (scan == Ok(false) ==> r == Reply(st, Err(Forbidden)))))
  {
  }

  /** Any of the four statuses may replace any other: for a member of the task's channel
      whose members all resolve, the update succeeds from every status to every status, and
      the stored task then carries the requested status. */
  lemma AnyTransitionAllowed(st: Store, caller: UserId, taskId: TaskId, status: string, env: Env)
    requires ValidStatus(status)
    requires FindTask(st.tasks, taskId).Some?
    requires var t := st.tasks[FindTask(st.tasks, taskId).value];
      t.channel in st.channels && MembersResolve(st.users, st.channels[t.channel].members)
      && IsMember(st.channels[t.channel], caller)
    ensures var r := UpdateStatus(st, caller, taskId, Some(status), env);
      var k := FindTask(st.tasks, taskId).value;
      && r.res.Ok? && r.res.value.status == status
      && |r.st.tasks| == |st.tasks| && r.st.tasks[k].status == status
  {
    var t := st.tasks[FindTask(st.tasks, taskId).value];
    PopulatedIsMemberAgrees(st.users, st.channels[t.channel], caller);
  }

  /** Rewriting one task's status keeps every task's id and assignee, so no one's task list
      changes. */
  lemma StatusWriteKeepsMyTasks(st: Store, k: nat, status: string, uid: UserId)
    requires k < |st.tasks|
    ensures MyTasks(st.(tasks := st.tasks[k := st.tasks[k].(status := status)]), uid) == MyTasks(st, uid)
  {
    var st' := st.(tasks := st.tasks[k := st.tasks[k].(status := status)]);
    forall id | id in MyTasks(st, uid) ensures id in MyTasks(st', uid) {
      var i :| 0 <= i < |st.tasks| && st.tasks[i].id == id && st.tasks[i].assignedTo == Some(uid);
      assert st'.tasks[i].id == id && st'.tasks[i].assignedTo == Some(uid);
    }
    forall id | id in MyTasks(st', uid) ensures id in MyTasks(st, uid) {
      var i :| 0 <= i < |st'.tasks| && st'.tasks[i].id == id && st'.tasks[i].assignedTo == Some(uid);
      assert st.tasks[i].id == id && st.tasks[i].assignedTo == Some(uid);
    }
  }

  /** A status update, whatever its outcome, leaves every user's task list as it was. */
  lemma UpdateKeepsMyTasks(st: Store, caller: UserId, taskId: TaskId, status: Option<string>, env: Env, uid: UserId)
    ensures MyTasks(UpdateStatus(st, caller, taskId, status, env).st, uid) == MyTasks(st, uid)
  {
    var r := UpdateStatus(st, caller, taskId, status, env);
    if r.st != st {
      var k := FindTask(st.tasks, taskId).value;
      StatusWriteKeepsMyTasks(st, k, status.value, uid);
      assert MyTasks(r.st, uid) == MyTasks(st.(tasks := r.st.tasks), uid);
    }
  }

  /** A non-member is refused and the status stays as it was. */
  lemma NonMemberCannotUpdate(st: Store, caller: UserId, taskId: TaskId, status: Option<string>, env: Env)
    requires FindTask(st.tasks, taskId).Some?
    requires var t := st.tasks[FindTask(st.tasks, taskId).value];
      t.channel in st.channels && !IsMember(st.channels[t.channel], caller)
    ensures UpdateStatus(st, caller, taskId, status, env).st == st
    ensures UpdateStatus(st, caller, taskId, status, env).res.Err?
  {
  }

  /** When the bot is configured and the first recipient gets the update, its text reports
      the status before the write and the status written (fields without line breaks). */
  lemma UpdateReportsOldAndNewStatus(st: Store, caller: UserId, taskId: TaskId, status: string, env: Env)
    requires UpdateStatus(st, caller, taskId, Some(status), env).res.Ok?
    requires var out := UpdateStatus(st, caller, taskId, Some(status), env).st.outbox;
      |out| > |st.outbox|
    requires var t := st.tasks[FindTask(st.tasks, taskId).value];
      && '\n' !in t.title && '\n' !in t.status && '\n' !in env.timeText
      && '\n' !in st.users[FindUser(st.users, caller).value].name
      && (t.description.Some? ==> '\n' !in t.description.value)
      && (t.priority.Some? ==> '\n' !in t.priority.value)
    ensures var out := UpdateStatus(st, caller, taskId, Some(status), env).st.outbox;
      var t := st.tasks[FindTask(st.tasks, taskId).value];
      var lines := Split(out[|st.outbox|].text, '\n');
      |lines| == 9 && lines[4] == Telegram.GetStatusEmoji(status) + " *Status:* " + t.status + " \U{2192} *" + status + "*"
  {
    var t := st.tasks[FindTask(st.tasks, taskId).value];
    var name := st.users[FindUser(st.users, caller).value].name;
    UpdateSendsTaskMessage(st, caller, taskId, status, env);
    assert '\n' !in status;
    Telegram.TaskUpdateLayout(t.title, name, t.status, status, env.timeText, t.description, t.priority);
  }

  /** The update that goes out is the task-update message for the task as it was before the
      write, the caller's name and the requested status. */
  lemma UpdateSendsTaskMessage(st: Store, caller: UserId, taskId: TaskId, status: string, env: Env)
    requires UpdateStatus(st, caller, taskId, Some(status), env).res.Ok?
    requires |UpdateStatus(st, caller, taskId, Some(status), env).st.outbox| > |st.outbox|
    ensures var t := st.tasks[FindTask(st.tasks, taskId).value];
      && FindUser(st.users, caller).Some?
      && UpdateStatus(st, caller, taskId, Some(status), env).st.outbox[|st.outbox|].text
         == Telegram.FormatTaskUpdateMessage(t.title, st.users[FindUser(st.users, caller).value].name, t.status,
                                             status, env.timeText, t.description, t.priority)
  {
  }

  // ---------------------------------------------------------------- comments

  /** POST /:taskId/comment.  A non-empty message (400), an existing task (404), its channel
      (missing: 500) and a membership (403) are required; one comment is appended and returned. */
  function AddComment(st: Store, caller: UserId, taskId: TaskId, message: Option<string>): (r: Reply<Comment>)
    ensures r.res.Err? ==> r.st == st
    ensures !Truthy(message) ==> r.res == Err(BadRequest)
    ensures Truthy(message) && FindTask(st.tasks, taskId).None? ==> r.res == Err(NotFound)
    ensures Truthy(message) && FindTask(st.tasks, taskId).Some? ==>
      var t := st.tasks[FindTask(st.tasks, taskId).value];
      && (t.channel !in st.channels ==> r.res == Err(ServerError))
      && (t.channel in st.channels && !IsMember(st.channels[t.channel], caller) ==> r.res == Err(Forbidden))
      && (t.channel in st.channels && IsMember(st.channels[t.channel], caller) ==> r.res.Ok?)
    ensures r.res.Ok? ==>
      && Truthy(message) && FindTask(st.tasks, taskId).Some?
      && var k := FindTask(st.tasks, taskId).value;
         && st.tasks[k].channel in st.channels && IsMember(st.channels[st.tasks[k].channel], caller)
         && r.res.value == Comment(caller, message.value)
         && r.st == st.(tasks := st.tasks[k := st.tasks[k].(comments := st.tasks[k].comments + [r.res.value])])
  {
    if !Truthy(message) then Reply(st, Err(BadRequest))
    else match FindTask(st.tasks, taskId)
      case None => Reply(st, Err(NotFound))
      case Some(k) =>
        var t := st.tasks[k];
        if t.channel !in st.channels then Reply(st, Err(ServerError))
        else if !IsMember(st.channels[t.channel], caller) then Reply(st, Err(Forbidden))
        else
          var cm := Comment(caller, message.value);
          Reply(st.(tasks := st.tasks[k := t.(comments := t.comments + [cm])]), Ok(cm))
  }

  /** Comments are append-only: the earlier comments of the task stay as they were, the new
      one is last, and every other task is untouched. */
  lemma CommentsAppendOnly(st: Store, caller: UserId, taskId: TaskId, message: Option<string>)
    requires AddComment(st, caller, taskId, message).res.Ok?
    ensures var st' := AddComment(st, caller, taskId, message).st;
      var k := FindTask(st.tasks, taskId).value;
      && |st'.tasks| == |st.tasks|
      && st'.tasks[k].comments[..|st.tasks[k].comments|] == st.tasks[k].comments
      && st'.tasks[k].comments[|st.tasks[k].comments|] == AddComment(st, caller, taskId, message).res.value
      && forall j :: 0 <= j < |st.tasks| && j != k ==> st'.tasks[j] == st.tasks[j]
  {
  }
}

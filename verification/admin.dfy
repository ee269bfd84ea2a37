/** The administrative handlers of server/routes/admin.js: the role update with its
    permission presets, the pagination of the user and channel lists, the per-channel
    progress figure, the cascading channel delete and the analytics time window. */
module Admin {
  import opened Wrappers
  import opened Seqs
  import opened Models
  import Access
  import AiService

  // ---------------------------------------------------------------- role update

  /** The permissions a role update installs before any custom override. */
  function RolePreset(r: Role): (p: Permissions)
    ensures p.canCreateChannels
    ensures p.canManageUsers <==> r == Admin
    ensures p.canAccessAnalytics <==> r != Volunteer
    ensures p.canExportData <==> r != Volunteer
  {
    match r
    case Admin => Permissions(true, true, true, true)
    case Organizer => Permissions(true, false, true, true)
    case Volunteer => Permissions(true, false, false, false)
  }

  /** The preset of a volunteer is the schema's default permission set. */
  lemma VolunteerPresetIsDefault()
    ensures RolePreset(Volunteer) == DefaultPermissions
  {
  }

  /** A `permissions` object of the request body: each flag may be supplied or not. */
  datatype PermissionPatch = PermissionPatch(
    canCreateChannels: Option<bool>,
    canManageUsers: Option<bool>,
    canAccessAnalytics: Option<bool>,
    canExportData: Option<bool>)

  function PatchFlag(patch: PermissionPatch, name: string): Option<bool> {
    if name == "canCreateChannels" then patch.canCreateChannels
    else if name == "canManageUsers" then patch.canManageUsers
    else if name == "canAccessAnalytics" then patch.canAccessAnalytics
    else if name == "canExportData" then patch.canExportData
    else None
  }

  const FlagNames: set<string> := {"canCreateChannels", "canManageUsers", "canAccessAnalytics", "canExportData"}

  /** `{ ...preset, ...patch }`. */
  function Merge(p: Permissions, patch: PermissionPatch): Permissions {
    Permissions(patch.canCreateChannels.GetOr(p.canCreateChannels), patch.canManageUsers.GetOr(p.canManageUsers),
                patch.canAccessAnalytics.GetOr(p.canAccessAnalytics), patch.canExportData.GetOr(p.canExportData))
  }

  /** The merge overrides key by key: a supplied flag wins, an omitted flag keeps the preset,
      and an empty patch changes nothing. */
  lemma MergeOverridesKeyByKey(p: Permissions, patch: PermissionPatch, name: string)
    requires name in FlagNames
    ensures PermissionFlag(Merge(p, patch), name) == PatchFlag(patch, name).GetOr(PermissionFlag(p, name))
    ensures PatchFlag(patch, name).None? ==> PermissionFlag(Merge(p, patch), name) == PermissionFlag(p, name)
    ensures Merge(p, PermissionPatch(None, None, None, None)) == p
  {
  }

  /** The four named flags determine a permission set. */
  lemma FlagsDetermine(p: Permissions, q: Permissions)
    requires forall name :: name in FlagNames ==> PermissionFlag(p, name) == PermissionFlag(q, name)
    ensures p == q
  {
    assert PermissionFlag(p, "canCreateChannels") == PermissionFlag(q, "canCreateChannels");
    assert PermissionFlag(p, "canManageUsers") == PermissionFlag(q, "canManageUsers");
    assert PermissionFlag(p, "canAccessAnalytics") == PermissionFlag(q, "canAccessAnalytics");
    assert PermissionFlag(p, "canExportData") == PermissionFlag(q, "canExportData");
  }

  datatype RoleRequest = RoleRequest(role: Option<string>, permissions: Option<PermissionPatch>)

  function NewPermissions(role: Role, patch: Option<PermissionPatch>): Permissions {
    match patch
    case None => RolePreset(role)
    case Some(q) => Merge(RolePreset(role), q)
  }

  /** PUT /users/:userId/role behind the admin check.  A role outside the three gives 400
      before anything is read; the role and the (possibly overridden) preset are written to
      the target, which must exist (404).  The answer hides the Google id. */
  function UpdateRole(st: Store, caller: UserId, target: UserId, req: RoleRequest): (r: Reply<UserView>)
    ensures r.res.Err? ==> r.st == st
    ensures Access.RequireAdmin(st.users, caller).Err? ==> r.res == Err(Access.RequireAdmin(st.users, caller).error)
    ensures Access.RequireAdmin(st.users, caller).Ok? && (req.role.None? || ParseRole(req.role.value).None?) ==>
      r.res == Err(BadRequest)
    ensures r.res.Ok? <==>
      Access.RequireAdmin(st.users, caller).Ok? && req.role.Some? && ParseRole(req.role.value).Some?
      && FindUser(st.users, target).Some?
    ensures r.res.Ok? ==>
      && |r.st.users| == |st.users|
      && r.st.channels == st.channels && r.st.tasks == st.tasks && r.st.messages == st.messages
    ensures r.res.Ok? ==> r.res.value == View(r.st.users[FindUser(st.users, target).value])
  {
    match Access.RequireAdmin(st.users, caller)
    case Err(e) => Reply(st, Err(e))
    case Ok(_) =>
      if req.role.None? || ParseRole(req.role.value).None? then Reply(st, Err(BadRequest))
      else
        var role := ParseRole(req.role.value).value;
        match FindUser(st.users, target)
        case None => Reply(st, Err(NotFound))
        case Some(k) =>
          var u := st.users[k].(role := role, permissions := NewPermissions(role, req.permissions));
          Reply(st.(users := st.users[k := u]), Ok(View(u)))
  }

  /** A successful role update changes the target's role and permissions to the preset
      (overridden by the supplied flags) and nothing else about any user. */
  lemma UpdateRoleWritesPreset(st: Store, caller: UserId, target: UserId, req: RoleRequest)
    requires UpdateRole(st, caller, target, req).res.Ok?
    ensures var users' := UpdateRole(st, caller, target, req).st.users;
      var k := FindUser(st.users, target).value;
      var role := ParseRole(req.role.value).value;
      && users'[k].role == role
      && (req.permissions.None? ==> users'[k].permissions == RolePreset(role))
      && (forall name :: name in FlagNames && req.permissions.Some? ==>
            PermissionFlag(users'[k].permissions, name)
              == PatchFlag(req.permissions.value, name).GetOr(PermissionFlag(RolePreset(role), name)))
      && users'[k].(role := st.users[k].role, permissions := st.users[k].permissions) == st.users[k]
      && (forall j :: 0 <= j < |st.users| && j != k ==> users'[j] == st.users[j])
  {
  }

  /** Promoting a user to admin without overrides lets them through the admin check. */
  lemma PromotedUserPassesAdminCheck(st: Store, caller: UserId, target: UserId)
    requires UpdateRole(st, caller, target, RoleRequest(Some("admin"), None)).res.Ok?
    ensures Access.RequireAdmin(UpdateRole(st, caller, target, RoleRequest(Some("admin"), None)).st.users, target).Ok?
  {
    var k := FindUser(st.users, target).value;
    FindUserAfterUpdate(st.users, target, UpdateRole(st, caller, target, RoleRequest(Some("admin"), None)).st.users[k]);
  }

  /** An organizer installed without overrides may read analytics and export data, but
      does not hold the user-management permission. */
  lemma OrganizerPresetAccess(st: Store, caller: UserId, target: UserId)
    requires UpdateRole(st, caller, target, RoleRequest(Some("organizer"), None)).res.Ok?
    ensures var users' := UpdateRole(st, caller, target, RoleRequest(Some("organizer"), None)).st.users;
      && Access.RequirePermission(users', target, "canAccessAnalytics").Ok?
      && Access.RequirePermission(users', target, "canExportData").Ok?
      && Access.RequirePermission(users', target, "canManageUsers") == Err(Forbidden)
  {
    var k := FindUser(st.users, target).value;
    FindUserAfterUpdate(st.users, target, UpdateRole(st, caller, target, RoleRequest(Some("organizer"), None)).st.users[k]);
  }

  // ---------------------------------------------------------------- pagination

  /** `parseInt(x) || fallback`, given the parse (None for NaN): 0 and NaN fall back. */
  function ParamOr(parsed: Option<int>, fallback: int): (n: int)
    ensures parsed.Some? && parsed.value != 0 ==> n == parsed.value
    ensures parsed.None? || parsed.value == 0 ==> n == fallback
  {
    if parsed.None? || parsed.value == 0 then fallback else parsed.value
  }

  function Abs(n: int): nat {
    if n < 0 then -n else n
  }

  /** `Math.ceil(total / limit)` for a non-zero limit; a negative limit rounds toward zero. */
  function Pages(total: nat, limit: int): (pages: int)
    requires limit != 0
    ensures limit > 0 ==> (pages - 1) * limit < total <= pages * limit
    ensures limit < 0 ==> pages == -(total / Abs(limit))
  {
    if limit > 0 then AiService.CeilDiv(total, limit) else -(total / Abs(limit))
  }

  function Min(a: int, b: int): int {
    if a <= b then a else b
  }

  /** `.skip((page - 1) * limit).limit(limit)` on the sorted result.  A negative skip is
      refused by the database (500); a negative limit returns as many documents as its
      absolute value. */
  function PageOf<T>(items: seq<T>, page: int, limit: int): (r: Result<seq<T>>)
    requires limit != 0
    ensures r.Err? <==> (page - 1) * limit < 0
    ensures r.Ok? ==> |r.value| <= Abs(limit)
    ensures r.Ok? ==> forall j :: 0 <= j < |r.value| ==>
      (page - 1) * limit + j < |items| && r.value[j] == items[(page - 1) * limit + j]
  {
    var skip := (page - 1) * limit;
    if skip < 0 then Err(ServerError)
    else
      var lo := Min(skip, |items|);
      var hi := Min(skip + Abs(limit), |items|);
      Ok(items[lo..hi])
  }

  datatype Pagination = Pagination(current: int, pages: int, total: nat)

  /** The listing shape of GET /users and GET /channels after the query: one page of the
      matching documents and the pagination block. */
  function ListPage<T>(items: seq<T>, page: Option<int>, limit: Option<int>): (r: Result<(seq<T>, Pagination)>)
    ensures r.Err? <==> (ParamOr(page, 1) - 1) * ParamOr(limit, 10) < 0
    ensures r.Err? ==> r.error == ServerError
    ensures r.Ok? ==> r.value.1.current == ParamOr(page, 1) && r.value.1.total == |items|
    ensures r.Ok? ==> r.value.0 == PageOf(items, ParamOr(page, 1), ParamOr(limit, 10)).value
    ensures r.Ok? ==> r.value.1.pages == Pages(|items|, ParamOr(limit, 10))
  {
    var p := ParamOr(page, 1);
    var l := ParamOr(limit, 10);
    var rows :- PageOf(items, p, l);
    Ok((rows, Pagination(p, Pages(|items|, l), |items|)))
  }

  /** Without parameters the listing is the first ten documents. */
  lemma DefaultListingIsFirstTen<T>(items: seq<T>)
    ensures ListPage(items, None, None).Ok?
    ensures ListPage(items, None, None).value.0 == Take(items, 10)
    ensures ListPage(items, None, None).value.1 == Pagination(1, Pages(|items|, 10), |items|)
  {
  }

  lemma DivBelow(i: nat, limit: nat, pages: int)
    requires limit > 0 && i < pages * limit
    ensures i / limit < pages
  {
  }

  /** A page with a non-negative skip holds, at offset `j` below the limit, the document at
      position skip + j whenever there is one. */
  lemma PageHolds<T>(items: seq<T>, page: int, limit: int, j: nat)
    requires limit > 0 && 0 <= (page - 1) * limit && j < limit && (page - 1) * limit + j < |items|
    ensures PageOf(items, page, limit).Ok?
    ensures var pg := PageOf(items, page, limit).value;
      j < |pg| && pg[j] == items[(page - 1) * limit + j]
  {
    var skip := (page - 1) * limit;
    assert PageOf(items, page, limit).value == items[skip..Min(skip + limit, |items|)];
  }

  /** The page number of a position lies between 1 and the page count. */
  lemma ItemPageInRange(total: nat, limit: int, i: nat)
    requires limit > 0 && i < total
    ensures 1 <= i / limit + 1 <= Pages(total, limit)
  {
    DivBelow(i, limit, Pages(total, limit));
  }

  lemma DivMod(i: nat, limit: int)
    requires limit > 0
    ensures (i / limit) * limit + i % limit == i && 0 <= i % limit < limit
    ensures 0 <= (i / limit + 1 - 1) * limit == (i / limit) * limit
  {
    MulMonotone(0, i / limit, limit);
  }

  /** With a positive limit every document is on exactly the page its position says: the
      page number lies in 1..pages and that page holds it at offset `i % limit`. */
  lemma EveryItemOnItsPage<T>(items: seq<T>, limit: int, i: nat)
    requires limit > 0 && i < |items|
    ensures 1 <= i / limit + 1 <= Pages(|items|, limit)
    ensures PageOf(items, i / limit + 1, limit).Ok?
    ensures var pg := PageOf(items, i / limit + 1, limit).value;
      i % limit < |pg| && pg[i % limit] == items[i]
  {
    ItemPageInRange(|items|, limit, i);
    DivMod(i, limit);
    PageHolds(items, i / limit + 1, limit, i % limit);
  }

  // ---------------------------------------------------------------- channel progress

  lemma DivBounds(n: nat, d: nat)
    requires d > 0
    ensures (n / d) * d <= n < (n / d) * d + d
  {
  }

  lemma MulMonotone(a: int, b: int, c: int)
    requires c >= 0
    ensures a <= b ==> a * c <= b * c
  {
  }

  /** `Math.round(completed / total * 100)` on exact ratios (half rounds up), 0 for no tasks. */
  function Progress(completed: nat, total: nat): (p: nat)
    requires completed <= total
    ensures total == 0 ==> p == 0
    ensures total > 0 ==> 2 * p * total <= 200 * completed + total < 2 * (p + 1) * total
    ensures p <= 100
  {
    if total == 0 then 0
    else
      var n := 200 * completed + total;
      var p := n / (2 * total);
      DivBounds(n, 2 * total);
      assert p * (2 * total) == 2 * p * total;
      assert p * (2 * total) + 2 * total == 2 * (p + 1) * total;
      assert p <= 100 by {
        MulMonotone(101, p, 2 * total);
      }
      p
  }

  /** The percentage is exact at the ends: no completed task gives 0 and all completed 100. */
  lemma ProgressEnds(total: nat)
    requires total > 0
    ensures Progress(0, total) == 0 && Progress(total, total) == 100
  {
    MulMonotone(1, Progress(0, total), 2 * total);
    MulMonotone(Progress(total, total) + 1, 100, 2 * total);
  }

  /** More completed tasks out of the same total never lower the percentage. */
  lemma ProgressMonotone(c1: nat, c2: nat, total: nat)
    requires c1 <= c2 <= total
    ensures Progress(c1, total) <= Progress(c2, total)
  {
    if total > 0 {
      MulMonotone(Progress(c2, total) + 1, Progress(c1, total), 2 * total);
    }
  }

  datatype ChannelStats = ChannelStats(totalTasks: nat, completedTasks: nat, progress: nat)

  function StatsCounting(tasks: seq<Task>, cid: ChannelId, finished: string): ChannelStats {
    var ofChannel := Filter(tasks, InChannel(cid));
    var completed := Filter(ofChannel, HasStatus(finished));
    ChannelStats(|ofChannel|, |completed|, Progress(|completed|, |ofChannel|))
  }

  /** The stats of GET /channels as written: completed means status "completed". */
  function ChannelStatsAsWritten(tasks: seq<Task>, cid: ChannelId): (s: ChannelStats)
    ensures s.totalTasks == Count(tasks, InChannel(cid))
    ensures s.completedTasks == Count(Filter(tasks, InChannel(cid)), HasStatus("completed")) <= s.totalTasks
    ensures s.progress == Progress(s.completedTasks, s.totalTasks) <= 100
  {
    StatsCounting(tasks, cid, "completed")
  }

  /** The stats counting the status the task route writes for a finished task, "done". */
  function ChannelStatsCorrected(tasks: seq<Task>, cid: ChannelId): (s: ChannelStats)
    ensures s.totalTasks == Count(tasks, InChannel(cid))
    ensures s.completedTasks == Count(Filter(tasks, InChannel(cid)), HasStatus("done")) <= s.totalTasks
    ensures s.progress == Progress(s.completedTasks, s.totalTasks) <= 100
  {
    StatsCounting(tasks, cid, "done")
  }

  predicate KanbanStatus(s: string) {
    s in {"todo", "in-progress", "review", "done"}
  }

  /** As written, a channel whose tasks all carry one of the statuses the status route can
      write shows 0% progress and no completed task, however many are done. */
  lemma AsWrittenProgressIgnoresDone(tasks: seq<Task>, cid: ChannelId)
    requires forall i :: 0 <= i < |tasks| ==> KanbanStatus(tasks[i].status)
    ensures ChannelStatsAsWritten(tasks, cid).completedTasks == 0
    ensures ChannelStatsAsWritten(tasks, cid).progress == 0
  {
    assert forall i :: 0 <= i < |tasks| ==> !HasStatus("completed")(tasks[i]);
    FilterKeepsNone(tasks, InChannel(cid), HasStatus("completed"));
    var n := |Filter(tasks, InChannel(cid))|;
    if n > 0 {
      ProgressEnds(n);
    }
  }

  /** The corrected figure: counted tasks are at most the channel's, and a channel whose
      every task is done shows 100%. */
  lemma CorrectedProgressCountsDone(tasks: seq<Task>, cid: ChannelId)
    ensures var s := ChannelStatsCorrected(tasks, cid);
      s.completedTasks <= s.totalTasks && s.progress <= 100
    ensures (forall i :: 0 <= i < |tasks| && tasks[i].channel == cid ==> tasks[i].status == "done")
            && ChannelStatsCorrected(tasks, cid).totalTasks > 0
            ==> ChannelStatsCorrected(tasks, cid).progress == 100
  {
    var ofChannel := Filter(tasks, InChannel(cid));
    if forall i :: 0 <= i < |tasks| && tasks[i].channel == cid ==> tasks[i].status == "done" {
      AllDone(tasks, ofChannel, cid);
      FilterAll(ofChannel, HasStatus("done"));
      if |ofChannel| > 0 {
        ProgressEnds(|ofChannel|);
      }
    }
  }

  lemma AllDone(tasks: seq<Task>, ofChannel: seq<Task>, cid: ChannelId)
    requires forall i :: 0 <= i < |tasks| && tasks[i].channel == cid ==> tasks[i].status == "done"
    requires forall i :: 0 <= i < |ofChannel| ==> ofChannel[i].channel == cid && ofChannel[i] in tasks
    ensures forall i :: 0 <= i < |ofChannel| ==> ofChannel[i].status == "done"
  {
    forall i | 0 <= i < |ofChannel| ensures ofChannel[i].status == "done" {
      var j :| 0 <= j < |tasks| && tasks[j] == ofChannel[i];
    }
  }

  /** The concrete case: one done task in a channel reads as 0% as written and 100% corrected. */
  lemma OneDoneTask(t: Task)
    requires t.status == "done"
    ensures ChannelStatsAsWritten([t], t.channel) == ChannelStats(1, 0, 0)
    ensures ChannelStatsCorrected([t], t.channel) == ChannelStats(1, 1, 100)
  {
    assert Filter([t], InChannel(t.channel)) == [t];
    assert Filter([t], HasStatus("done")) == [t];
    ProgressEnds(1);
  }

  // ---------------------------------------------------------------- channel delete

  /** DELETE /channels/:channelId behind the admin check.  The channel's tasks and messages
      are deleted first, so even an id without a channel loses them before the 404. */
  function DeleteChannel(st: Store, caller: UserId, cid: ChannelId): (r: Reply<bool>)
    ensures Access.RequireAdmin(st.users, caller).Err? ==> r == Reply(st, Err(Access.RequireAdmin(st.users, caller).error))
    ensures Access.RequireAdmin(st.users, caller).Ok? && cid !in st.channels ==> r.res == Err(NotFound)
    ensures r.res.Ok? <==> Access.RequireAdmin(st.users, caller).Ok? && cid in st.channels
    ensures r.st.users == st.users
  {
    match Access.RequireAdmin(st.users, caller)
    case Err(e) => Reply(st, Err(e))
    case Ok(_) =>
      var swept := st.(tasks := Filter(st.tasks, (t: Task) => t.channel != cid),
                       messages := Filter(st.messages, (m: Message) => m.channel != cid));
      if cid !in st.channels then Reply(swept, Err(NotFound))
      else Reply(swept.(channels := st.channels - {cid}), Ok(true))
  }

  /** Once past the admin check, nothing refers to the deleted id afterwards, whether or
      not the channel existed, while the other channels keep their tasks and messages in
      order. */
  lemma DeleteLeavesNoOrphans(st: Store, caller: UserId, cid: ChannelId)
    requires Access.RequireAdmin(st.users, caller).Ok?
    ensures var st' := DeleteChannel(st, caller, cid).st;
      && cid !in st'.channels
      && (forall c :: c in st.channels && c != cid ==> c in st'.channels && st'.channels[c] == st.channels[c])
      && (forall i :: 0 <= i < |st'.tasks| ==> st'.tasks[i].channel != cid)
      && (forall i :: 0 <= i < |st'.messages| ==> st'.messages[i].channel != cid)
      && (forall i :: 0 <= i < |st.tasks| && st.tasks[i].channel != cid ==> st.tasks[i] in st'.tasks)
      && (forall i :: 0 <= i < |st.messages| && st.messages[i].channel != cid ==> st.messages[i] in st'.messages)
      && IsSubsequence(st'.tasks, st.tasks) && IsSubsequence(st'.messages, st.messages)
  {
    FilterIsSubsequence(st.tasks, (t: Task) => t.channel != cid);
    FilterIsSubsequence(st.messages, (m: Message) => m.channel != cid);
  }

  // ---------------------------------------------------------------- analytics

  /** The number of days a timeframe looks back: 7d, 30d and 90d; anything else has no
      window.  An absent timeframe is `30d`. */
  function TimeframeDays(timeframe: Option<string>): (d: Option<nat>)
    ensures timeframe.None? ==> d == Some(30)
    ensures timeframe.Some? ==> (d.Some? <==> timeframe.value in {"7d", "30d", "90d"})
  {
    var tf := timeframe.GetOr("30d");
    if tf == "7d" then Some(7) else if tf == "30d" then Some(30) else if tf == "90d" then Some(90) else None
  }

  /** The `createdAt >= cutoff` bound of the analytics queries, in milliseconds. */
  function AnalyticsCutoff(timeframe: Option<string>, now: int): (c: Option<int>)
    ensures TimeframeDays(timeframe).None? <==> c.None?
    ensures c.Some? ==> c.value == now - TimeframeDays(timeframe).value * AiService.MsPerDay
  {
    match TimeframeDays(timeframe)
    case None => None
    case Some(d) => Some(now - d * AiService.MsPerDay)
  }

  predicate InWindow(cutoff: Option<int>, createdAt: int) {
    cutoff.None? || createdAt >= cutoff.value
  }

  /** The windows nest: whatever the 7-day window counts the 30-day window counts, the
      90-day window counts that, and an unrecognised timeframe counts everything. */
  lemma WindowsNest(now: int, createdAt: int, other: string)
    requires other !in {"7d", "30d", "90d"}
    ensures InWindow(AnalyticsCutoff(Some("7d"), now), createdAt) ==> InWindow(AnalyticsCutoff(Some("30d"), now), createdAt)
    ensures InWindow(AnalyticsCutoff(Some("30d"), now), createdAt) ==> InWindow(AnalyticsCutoff(Some("90d"), now), createdAt)
    ensures InWindow(AnalyticsCutoff(Some(other), now), createdAt)
    ensures AnalyticsCutoff(None, now) == AnalyticsCutoff(Some("30d"), now)
  {
  }

  datatype AnalyticsWindow = AnalyticsWindow(timeframe: string, cutoff: Option<int>, tasks: seq<Task>)

  /** GET /analytics behind the analytics permission: the echoed timeframe, the cutoff and
      the tasks it covers (the aggregations over them are not modelled). */
  function Analytics(st: Store, caller: UserId, timeframe: Option<string>, now: int): (r: Result<AnalyticsWindow>)
    ensures r.Ok? <==> Access.RequirePermission(st.users, caller, "canAccessAnalytics").Ok?
    ensures Access.RequirePermission(st.users, caller, "canAccessAnalytics").Err? ==>
      r == Err(Access.RequirePermission(st.users, caller, "canAccessAnalytics").error)
    ensures r.Ok? ==> r.value.timeframe == timeframe.GetOr("30d")
    ensures r.Ok? ==> r.value.cutoff == AnalyticsCutoff(timeframe, now)
    ensures r.Ok? ==> forall i :: 0 <= i < |r.value.tasks| ==>
      InWindow(r.value.cutoff, r.value.tasks[i].createdAt) && r.value.tasks[i] in st.tasks
    ensures r.Ok? ==> forall i :: 0 <= i < |st.tasks| && InWindow(r.value.cutoff, st.tasks[i].createdAt) ==>
      st.tasks[i] in r.value.tasks
  {
    var _ :- Access.RequirePermission(st.users, caller, "canAccessAnalytics");
    var cutoff := AnalyticsCutoff(timeframe, now);
    Ok(AnalyticsWindow(timeframe.GetOr("30d"), cutoff, Filter(st.tasks, (t: Task) => InWindow(cutoff, t.createdAt))))
  }
}

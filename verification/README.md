# Channel collaboration rules of ai-productivity-app

This project models the rules behind event channels in ai-productivity-app:

- who may read or change a channel, its tasks and its messages;
- how an invitation becomes a membership;
- how a task's status changes and who is told;
- what the admin routes compute (role presets, pagination, progress, cascading delete, analytics windows, CSV export);
- the login and profile routes;
- the mock AI helpers;
- the Telegram message builders;
- the client-side state updates of the kanban board, the channel chat, the invite form and the admin dashboard filters.

Every route is a pure function. It takes the database as a value, the
authenticated caller and the request body. It returns the new database and
either a response value or an HTTP error class: 400, 401, 403, 404 or 500. A
500 stands for what the running code would throw: reading a field of `null`,
or a document failing schema validation when it is saved (an enum value
outside the schema, a duplicate unique email, a required name that trims to
nothing). Outgoing Telegram messages are appended to an outbox in the state.
A send is never awaited by its caller, and its outcome is not modelled.

Modules:

| module | file | models |
|---|---|---|
| Wrappers, Seqs, Text | wrappers.dfy, seqs.dfy, text.dfy | Option/Result, the HTTP error classes, filters and counts, JavaScript string helpers (truthiness, trim, lower-case, includes, join) |
| Models | models.dfy | the User, Channel and Message schemas with their enums and defaults; the database |
| Access | access.dfy | server/middleware/admin.js |
| Channels | channels.dfy | server/routes/channel.js |
| Tasks | tasks.dfy | server/routes/task.js |
| Admin, Export | admin.dfy, export.dfy | server/routes/admin.js |
| Users, Auth | users.dfy, auth.dfy | server/routes/user.js, server/routes/auth.js |
| AiService, AiRoutes | ai_service.dfy, ai_routes.dfy | server/services/aiService.js, server/routes/ai.js |
| Telegram | telegram.dfy | server/services/telegramService.js |
| Kanban, Chat, InviteForm, Dashboard | kanban.dfy, chat.dfy, invite_form.dfy, dashboard.dfy | the four client components |

Sources cited below are under `ai-productivity-app/`.

Behaviour worth noting:

- The chat message route sends its Telegram notification to every member with a contact, without removing duplicates.
- The global-admin shortcut exists only in the channel-access middleware; the route handlers in channel.js check membership or the admin field themselves.
- The Task schema is not part of this model. The model reads a task's status as a plain string, and the caller of `Tasks.CreateTask` supplies the initial status.

## Model

| member | source | states |
|---|---|---|
| Models.ParseRole | ai-productivity-app/server/models/User.js:35-39 | a parsed role is one whose name is the text parsed |
| Models.RoleNamesRoundTrip | ai-productivity-app/server/models/User.js:35-39 | every role's name parses back to that role |
| Models.ParseInviteRole | ai-productivity-app/server/models/Channel.js:50-54 | a parsed invitation role is one whose name is the text parsed |
| Models.GrantedRole | ai-productivity-app/server/models/Channel.js:35-39 | an accepted invitation grants the member role of the same name, never admin |
| Models.InviteRolesRoundTrip | ai-productivity-app/server/models/Channel.js:50-54 | both invitation roles parse back from their names |
| Models.AdminIsNotInvitable | ai-productivity-app/server/models/Channel.js:50-54 | "admin" is a user role but is outside the invitation enum |
| Models.ParseEventType | ai-productivity-app/server/models/Channel.js:13-17 | a parsed event type is one whose name is the text parsed |
| Models.EventTypesRoundTrip | ai-productivity-app/server/models/Channel.js:13-17 | every event type's name parses back to it |
| Models.ParseMessageType | ai-productivity-app/server/models/Message.js:17-21 | a parsed message type is one whose name is the text parsed |
| Models.MessageTypesRoundTrip | ai-productivity-app/server/models/Message.js:17-21 | every message type's name parses back to it |
| Models.EnumField | ai-productivity-app/server/models/Channel.js:13-17 | an omitted enum field takes the schema default, a listed value is stored, and any other value fails validation (500) |
| Models.NewUser | ai-productivity-app/server/models/User.js:3-61 | a new user has the given identity and picture, an incomplete empty profile, the volunteer role, the default permissions and no Telegram id |
| Models.ViewHidesOnlyGoogleId | ai-productivity-app/server/routes/user.js:10 | two users read with the Google id excluded look alike exactly when they differ at most in the Google id |
| Models.AiMessage | ai-productivity-app/server/models/Message.js:9-25 | an AI-authored message has no sender, is of type ai-response and is flagged as AI |
| Models.FindUser | ai-productivity-app/server/routes/channel.js:165 | a lookup by id finds the first user with that id, or reports that none has it |
| Models.FindUserAfterUpdate | ai-productivity-app/server/routes/user.js:26-41 | rewriting a found user with the same id keeps the lookup pointing at the same position |
| Models.FindUserByEmail | ai-productivity-app/server/routes/channel.js:113-118 | a lookup by email finds a user with that email, or reports that none has it |
| Models.FindUserByGoogleId | ai-productivity-app/server/routes/auth.js:17 | a lookup by Google id finds a user with that id, or reports that none has it |
| Models.FindTask | ai-productivity-app/server/routes/task.js:135-141 | a lookup by id finds a task with that id, or reports that none has it |
| Models.PopulatedIsMember | ai-productivity-app/server/routes/channel.js:77-83 | on a populated member list the membership test answers true only for a listed and existing user, and false only when the user is not listed |
| Models.PopulatedIsMemberAgrees | ai-productivity-app/server/routes/channel.js:77-83 | when every member resolves to a user, the populated test agrees with plain membership |
| Models.PopulatedScan | ai-productivity-app/server/routes/channel.js:77-83 | when every member resolves to a user, the populated test never throws |
| Access.RequireAdmin | ai-productivity-app/server/middleware/admin.js:4-21 | an unknown caller gets 404 and a stored user passes exactly when their role is admin, otherwise 403 |
| Access.RequireAdminPassesOnlyAdmins | ai-productivity-app/server/middleware/admin.js:6-14 | the check passes exactly when the first user with the caller's id is an admin, and it returns that user |
| Access.RequirePermission | ai-productivity-app/server/middleware/admin.js:24-52 | a stored user passes when they are an admin or hold the named flag, otherwise 403; an unknown caller gets 404 |
| Access.AdminHasEveryPermission | ai-productivity-app/server/middleware/admin.js:34-44 | an admin passes every permission check with the same answer as the admin check |
| Access.UnknownPermissionOnlyForAdmins | ai-productivity-app/server/middleware/admin.js:34-44 | a permission name that is neither one of the four flags nor inherited from Object.prototype is granted exactly to admins |
| Access.InheritedPermissionPassesEveryone | ai-productivity-app/server/middleware/admin.js:40 | a name inherited from Object.prototype, such as "toString", reads as a truthy function, so every registered user passes |
| Access.RoleLevel | ai-productivity-app/server/middleware/admin.js:95-102 | a role's level is 3 exactly for admin and 2 exactly for organizer; any other text counts as level 1 |
| Access.RoleLevelsOrdered | ai-productivity-app/server/middleware/admin.js:95-102 | volunteer ranks below organizer, which ranks below admin |
| Access.FindMembership | ai-productivity-app/server/middleware/admin.js:87-93 | the membership found belongs to the user, and none is found exactly when the user is not a member |
| Access.GlobalAdminPassesEverywhere | ai-productivity-app/server/middleware/admin.js:66-78 | a global admin passes the channel-access check for any channel and level, as a global admin |
| Access.UnknownUserOrChannelNotFound | ai-productivity-app/server/middleware/admin.js:61-77 | the channel-access check answers 404 for a caller with no user document, and for a caller who is not a global admin when the channel id is missing or names no channel |
| Access.ChannelAdminPassesEveryLevel | ai-productivity-app/server/middleware/admin.js:80-84 | the user in a channel's admin field passes for that channel at every level |
| Access.OutsiderRefused | ai-productivity-app/server/middleware/admin.js:87-93 | a non-admin who is neither the channel admin nor a member is refused with 403 |
| Access.MemberPassesIffLevelReached | ai-productivity-app/server/middleware/admin.js:95-108 | a plain member passes exactly when their channel role's level reaches the required level |
| Access.AccessMonotone | ai-productivity-app/server/middleware/admin.js:104-108 | passing at a level implies passing at every lower level |
| Access.UnknownMinRoleIsVolunteer | ai-productivity-app/server/middleware/admin.js:95-102 | an unrecognised required role behaves like volunteer |
| Channels.CreateChannel | ai-productivity-app/server/routes/channel.js:11-41 | a falsy name gives 400; a channel is stored exactly when the name is non-blank and the event type is valid; it is run by the caller, who is its only member (as admin), with the requested event type or `other` when none is given, no invitations, status planning and the schema's default plan (empty details, an empty action plan, no generation time) |
| Channels.MyChannels | ai-productivity-app/server/routes/channel.js:45-61 | a channel is listed exactly when it exists and the user is its admin field or one of its members |
| Channels.ReadableChannelIsListed | ai-productivity-app/server/routes/channel.js:45-89 | every channel the user may open is on their channel list |
| Channels.CreatedChannelIsListed | ai-productivity-app/server/routes/channel.js:19-52 | creating a channel adds exactly that channel to its creator's list |
| Channels.GetChannel | ai-productivity-app/server/routes/channel.js:65-89 | a missing channel gives 404; a channel is returned only to one of its members |
| Channels.GetChannelIffMember | ai-productivity-app/server/routes/channel.js:77-83 | with resolvable members, a channel is returned exactly to its members, and anyone else gets 403 |
| Channels.AdminFieldAloneGrantsNothing | ai-productivity-app/server/routes/channel.js:77-83 | being named in the admin field without being a member does not give read access |
| Channels.FindPending | ai-productivity-app/server/routes/channel.js:130-135 | finds the first pending invitation for an email, and none exactly when there is no such invitation |
| Channels.Invite | ai-productivity-app/server/routes/channel.js:93-158 | errors in order (400 email, 404 channel, 403 not the admin field), then 404 for an unregistered invitee and 400 for a member or an invitee with a pending invitation; otherwise success exactly for a valid role (500 for an invalid one), appending one pending invitation with the requested role, defaulting to volunteer |
| Channels.InviteDefaultsToVolunteer | ai-productivity-app/server/routes/channel.js:95 | an invitation without a role is for a volunteer |
| Channels.InviteRefusesSecondPending | ai-productivity-app/server/routes/channel.js:130-135 | an email with a pending invitation cannot be invited again |
| Channels.InviteKeepsPendingUnique | ai-productivity-app/server/routes/channel.js:130-145 | an invitation never gives one email two pending invitations in a channel |
| Channels.Accept | ai-productivity-app/server/routes/channel.js:162-201 | 404 for a missing channel; a missing caller reads as null, so 500 when the channel has invitations and 404 when it has none; for a stored caller, success exactly when their email has a pending invitation (else 404), marking it accepted and appending the caller as a member with the invited role |
| Channels.AcceptAddsOneMember | ai-productivity-app/server/routes/channel.js:173-190 | acceptance appends exactly one non-admin membership for the caller and keeps the earlier members |
| Channels.AcceptListsChannel | ai-productivity-app/server/routes/channel.js:45-61 | after accepting, the channel is on the caller's list |
| Channels.AcceptNotRepeatable | ai-productivity-app/server/routes/channel.js:173-188 | a second acceptance of the same invitation gives 404 and changes nothing |
| Channels.PendingInvitations | ai-productivity-app/server/routes/channel.js:205-237 | the corrected listing fails only for an unknown caller |
| Channels.PendingInvitationsExact | ai-productivity-app/server/routes/channel.js:209-230 | the corrected listing holds the entry of every channel with an invitation pending for the caller's email, built from the first such invitation, and every entry it holds is the entry of such a channel |
| Channels.PendingInvitationsAsWritten | ai-productivity-app/server/routes/channel.js:204-238 | a caller without a user document gets 500; otherwise the listing fails (500) exactly when some channel matches the query through an email on one invitation and a pending status on another, with no invitation pending for the caller |
| Channels.PendingAsWrittenAgreesWhenOk | ai-productivity-app/server/routes/channel.js:209-230 | whenever the listing as written succeeds it equals the corrected one |
| Channels.PendingAsWrittenFailsOnMixedInvitations | ai-productivity-app/server/routes/channel.js:209-230 | a member with an accepted invitation, in a channel holding someone else's pending invitation, makes the listing as written fail with 500; the corrected listing is empty |
| Channels.ChannelMessages | ai-productivity-app/server/routes/channel.js:259 | the channel query returns only that channel's messages |
| Channels.Chronological | ai-productivity-app/server/routes/channel.js:260 | the sort is a permutation of the channel's messages, ordered by creation time |
| Channels.ListMessagesAsWritten | ai-productivity-app/server/routes/channel.js:241-268 | 404 for a missing channel, success exactly for members, and at most 100 messages taken from the front of the chronological list |
| Channels.ListMessages | ai-productivity-app/server/routes/channel.js:241-268 | the corrected listing has the same access rule and the same bound |
| Channels.ListMessagesAsWrittenIsOldest | ai-productivity-app/server/routes/channel.js:259-262 | as written, the listing is the oldest min(n, 100) messages in order |
| Channels.ListMessagesIsLatest | ai-productivity-app/server/routes/channel.js:259-262 | corrected, the listing is the newest min(n, 100) messages, oldest first |
| Channels.ListMessagesAsWrittenDropsNewest | ai-productivity-app/server/routes/channel.js:259-262 | with more than 100 messages, the strictly newest one is missing from the listing as written and present in the corrected one |
| Channels.MemberTelegramIds | ai-productivity-app/server/routes/channel.js:306-308 | collecting the members' contacts succeeds exactly when every member resolves, and yields only non-empty ids |
| Channels.MemberTelegramIdsCount | ai-productivity-app/server/routes/channel.js:306-308 | one id is collected per member with a contact, so duplicates are kept |
| Channels.SendMessage | ai-productivity-app/server/routes/channel.js:272-324 | errors in order (400 content, 404 channel); success requires membership and a valid type, appends exactly the new message with the caller as sender, and only adds to the outbox |
| Channels.SendMessageSucceedsForMembers | ai-productivity-app/server/routes/channel.js:272-302 | a member whose channel members all resolve, sending non-empty content of a valid type, succeeds |
| Channels.SendMessageRefusals | ai-productivity-app/server/routes/channel.js:283-296 | a member scan that meets a dangling member is 500, a non-member is 403, and an invalid type for a member is 500; none of them stores anything |
| Channels.SendMessageNotifiesContacts | ai-productivity-app/server/routes/channel.js:305-318 | with the bot ready, every member with a contact is sent the formatted channel message once |
| Tasks.CreateTask | ai-productivity-app/server/routes/task.js:11-65 | 400 without title or channel; a task is created exactly for a member of an existing channel, with the caller as creator and the request's title, description, assignee, priority, due date and estimated hours, no comments, the tags given or none, and `now` as the creation time the database stamps |
| Tasks.GroupingPartitions | ai-productivity-app/server/routes/task.js:93-98 | the four buckets plus the tasks with any other status account for every fetched task |
| Tasks.GroupingKeepsOrder | ai-productivity-app/server/routes/task.js:93-98 | each bucket keeps the order of the fetched list |
| Tasks.ChannelTasks | ai-productivity-app/server/routes/task.js:87-90 | a channel's tasks are a permutation of its tasks, newest first |
| Tasks.ListChannelTasks | ai-productivity-app/server/routes/task.js:69-107 | 404 for a missing channel, success exactly for members; the listing holds exactly the channel's tasks (as a multiset, so none lost or repeated), newest first, with the grouping by status of that listing |
| Tasks.CreatedTaskIsOnAssigneesList | ai-productivity-app/server/routes/task.js:42-52 | a task created with an assignee appears on the assignee's task list |
| Tasks.AddDistinctProperties | ai-productivity-app/server/routes/task.js:163-175 | adding ids keeps the list free of duplicates and extends it by exactly the new non-empty ids |
| Tasks.RecipientsProperties | ai-productivity-app/server/routes/task.js:163-175 | the recipient list has no duplicates, starts with the assignee's contact when there is one, and contains exactly the non-empty contacts of the assignee and the members |
| Tasks.BuildRecipients | ai-productivity-app/server/routes/task.js:163-175 | the loop computes the recipient list, with its three properties |
| Tasks.UpdateStatus | ai-productivity-app/server/routes/task.js:126-195 | 400 for a missing or non-kanban status before any read; the status is written only for a member of the task's existing channel; a failure after the write is a 500; success returns the task with its new status and stores exactly that task in its place |
| Tasks.UpdateStatusRefusals | ai-productivity-app/server/routes/task.js:135-152 | for a valid status: 404 for an unknown task, 500 for a task whose channel is gone or whose member scan meets a dangling member, 403 for a non-member; none of them stores anything |
| Tasks.UpdateSendsTaskMessage | ai-productivity-app/server/routes/task.js:160-186 | a successful update that notifies sends the task-update text naming the task, the updater, the old and the new status |
| Tasks.StatusWriteKeepsMyTasks | ai-productivity-app/server/routes/task.js:111-122 | writing one task's status leaves every user's assigned-task list unchanged |
| Tasks.UpdateKeepsMyTasks | ai-productivity-app/server/routes/task.js:111-195 | a status update, successful or not, leaves every user's assigned-task list unchanged |
| Tasks.UpdateStatusNotifiesFirstOnly | ai-productivity-app/server/routes/task.js:178-186 | at most one Telegram message is sent, and it goes to the assignee's contact when there is one |
| Tasks.AnyTransitionAllowed | ai-productivity-app/server/routes/task.js:147-157 | any kanban status may follow any other for a member with resolvable co-members, and the stored task then carries the new status |
| Tasks.NonMemberCannotUpdate | ai-productivity-app/server/routes/task.js:147-157 | a caller outside the task's channel gets an error and changes nothing |
| Tasks.UpdateReportsOldAndNewStatus | ai-productivity-app/server/routes/task.js:144 | the update message shows the status before the change and the new one |
| Tasks.AddComment | ai-productivity-app/server/routes/task.js:199-238 | 400 without a message, 404 for an unknown task, 500 for a task whose channel is gone, 403 for a non-member; a member succeeds and appends exactly one comment authored by themselves |
| Tasks.MyTasks | ai-productivity-app/server/routes/task.js:110-122 | a task id is listed exactly when some task with that id is assigned to the user |
| Tasks.GroupByStatus | ai-productivity-app/server/routes/task.js:93-98 | each status column holds the listing's tasks of that status |
| Tasks.CommentsAppendOnly | ai-productivity-app/server/routes/task.js:204-233 | a comment keeps the earlier comments and every other task |
| Admin.RolePreset | ai-productivity-app/server/routes/admin.js:118-139 | every preset may create channels, only admin may manage users, and everyone but volunteers may see analytics and export |
| Admin.VolunteerPresetIsDefault | ai-productivity-app/server/models/User.js:40-57 | the volunteer preset equals the schema's default permissions |
| Admin.MergeOverridesKeyByKey | ai-productivity-app/server/routes/admin.js:141-144 | a supplied permission flag overrides the preset and an omitted one keeps it |
| Admin.FlagsDetermine | ai-productivity-app/server/models/User.js:40-57 | two permission sets agreeing on the four flags are equal |
| Admin.UpdateRole | ai-productivity-app/server/routes/admin.js:106-164 | the admin check comes first, then 400 for a role outside the three, then 404 for a missing target; success touches only the users and answers the updated target's view, without the Google id |
| Admin.UpdateRoleWritesPreset | ai-productivity-app/server/routes/admin.js:115-154 | the target gets the role and its preset, overridden flag by flag; nothing else changes |
| Admin.PromotedUserPassesAdminCheck | ai-productivity-app/server/routes/admin.js:118-124 | a user promoted to admin passes the admin check |
| Admin.OrganizerPresetAccess | ai-productivity-app/server/routes/admin.js:125-131 | an organizer may see analytics and export but not manage users |
| Admin.ParamOr | ai-productivity-app/server/routes/admin.js:65-66 | a parsed query parameter is used unless it is missing or zero |
| Admin.Pages | ai-productivity-app/server/routes/admin.js:95 | for a positive limit, the page count is the least number of pages holding every item |
| Admin.PageOf | ai-productivity-app/server/routes/admin.js:86-87 | a negative skip is refused; a page is a run of at most the limit's size, starting at the skip |
| Admin.ListPage | ai-productivity-app/server/routes/admin.js:63-103 | 500 exactly when the skip is negative; the rows are the requested page of the documents (with default page 1 and limit 10), the page count is the ceiling of total over limit, and the pagination reports the requested page and the total |
| Admin.DefaultListingIsFirstTen | ai-productivity-app/server/routes/admin.js:65-95 | without parameters the listing is the first ten items, page 1 of ceil(n/10) |
| Admin.EveryItemOnItsPage | ai-productivity-app/server/routes/admin.js:86-95 | every item appears on a page within the page count, at its position |
| Admin.PageHolds | ai-productivity-app/server/routes/admin.js:86-87 | the j-th entry of a page is the item skip + j places into the list |
| Admin.ItemPageInRange | ai-productivity-app/server/routes/admin.js:95 | the page holding any item lies between the first page and the page count |
| Admin.Progress | ai-productivity-app/server/routes/admin.js:207 | progress is the percentage rounded half up, 0 for no tasks, at most 100 |
| Admin.ProgressEnds | ai-productivity-app/server/routes/admin.js:207 | no finished task gives 0, all finished gives 100 |
| Admin.ProgressMonotone | ai-productivity-app/server/routes/admin.js:207 | more finished tasks never lower the progress |
| Admin.AsWrittenProgressIgnoresDone | ai-productivity-app/server/routes/admin.js:196-208 | as written, a channel whose tasks carry only kanban statuses has no completed task and 0% progress |
| Admin.CorrectedProgressCountsDone | ai-productivity-app/server/routes/admin.js:196-208 | counting done tasks, progress stays within 100 and reaches 100 when every task is done |
| Admin.ChannelStatsAsWritten | ai-productivity-app/server/routes/admin.js:196-208 | the total counts the channel's tasks, the completed count those of them with status "completed", never more than the total, and the progress is their rounded percentage, at most 100 |
| Admin.ChannelStatsCorrected | ai-productivity-app/server/routes/admin.js:196-208 | the same stats counting the channel's tasks with status "done" as completed |
| Admin.OneDoneTask | ai-productivity-app/server/routes/admin.js:196-208 | a single done task shows 0% as written and 100% corrected |
| Admin.DeleteChannel | ai-productivity-app/server/routes/admin.js:228-250 | the admin check comes first, then 404 for a missing channel; the users are never touched |
| Admin.DeleteLeavesNoOrphans | ai-productivity-app/server/routes/admin.js:233-243 | a delete removes the channel and every task and message of it, and keeps every other channel, task and message in order |
| Admin.TimeframeDays | ai-productivity-app/server/routes/admin.js:255-270 | the window is 30 days by default and exists exactly for 7d, 30d and 90d |
| Admin.AnalyticsCutoff | ai-productivity-app/server/routes/admin.js:260-270 | the cutoff is that many days before now, and absent for any other timeframe |
| Admin.WindowsNest | ai-productivity-app/server/routes/admin.js:260-270 | the 7-day window lies inside the 30-day one, which lies inside the 90-day one; an unknown timeframe counts everything |
| Admin.Analytics | ai-productivity-app/server/routes/admin.js:253-357 | only callers with the analytics permission get the report, and a refused caller gets the permission check's error (404 for an unknown caller, 403 otherwise); it names the timeframe, uses the cutoff of that timeframe, and covers exactly the stored tasks inside the window |
| Export.Keys | ai-productivity-app/server/routes/admin.js:411 | the header holds the first row's keys in order |
| Export.Lookup | ai-productivity-app/server/routes/admin.js:416 | a key the row does not have reads as undefined |
| Export.Escape | ai-productivity-app/server/routes/admin.js:418-420 | escaping never shortens a cell |
| Export.QuotedCells | ai-productivity-app/server/routes/admin.js:415-421 | one quoted cell per value |
| Export.RowCells | ai-productivity-app/server/routes/admin.js:415-421 | one cell per header key |
| Export.DataLines | ai-productivity-app/server/routes/admin.js:414-422 | one line per row |
| Export.ParseQuoted | ai-productivity-app/server/routes/admin.js:418-420 | reading a quoted cell always consumes input |
| Export.ParseRecord | ai-productivity-app/server/routes/admin.js:421 | reading a record consumes input and stops at a line break or the end |
| Export.UnescapeEscape | ai-productivity-app/server/routes/admin.js:418-420 | reading back an escaped cell gives the original text |
| Export.QuoteRoundTrip | ai-productivity-app/server/routes/admin.js:418-420 | a quoted cell reads back as its text |
| Export.RecordRoundTrip | ai-productivity-app/server/routes/admin.js:421 | a comma-joined line of quoted cells reads back as its cells |
| Export.RecordLineCons | ai-productivity-app/server/routes/admin.js:421 | a line of several cells is the first quoted cell, a comma and the line of the rest |
| Export.ParseQuotedThenRecord | ai-productivity-app/server/routes/admin.js:421 | a quoted cell, a comma and a readable record read back as that cell followed by the record |
| Export.RecordRoundTripStep | ai-productivity-app/server/routes/admin.js:421 | if the line of the other cells reads back, so does the line of all cells |
| Export.RecordLines | ai-productivity-app/server/routes/admin.js:414-422 | one line per record |
| Export.RecordsRoundTrip | ai-productivity-app/server/routes/admin.js:412-423 | the newline-joined data lines read back as the records |
| Export.BreakLineAt | ai-productivity-app/server/routes/admin.js:413 | the header line ends at its first line break |
| Export.JoinFree | ai-productivity-app/server/routes/admin.js:413 | joining texts free of a character with a separator free of it gives a text free of it |
| Export.Table | ai-productivity-app/server/routes/admin.js:414-422 | one row of cells per row |
| Export.CsvRoundTrip | ai-productivity-app/server/routes/admin.js:408-426 | for header keys without commas or line breaks, the CSV reads back as the first row's keys and every row's cell texts under them |
| Export.EmptyExport | ai-productivity-app/server/routes/admin.js:409 | no rows give the empty text, which reads back as an empty table |
| Export.MissingKeyReadsUndefined | ai-productivity-app/server/routes/admin.js:416-420 | a row without a header key shows "undefined" in that column |
| Export.ParseExportKind | ai-productivity-app/server/routes/admin.js:368-387 | a recognised export type is one of users, channels and tasks, named by the text |
| Export.ExportData | ai-productivity-app/server/routes/admin.js:360-405 | only callers with the export permission pass; an unknown type fails; the CSV body is produced exactly for format csv and is the conversion of the rows |
| Export.ExportFileName | ai-productivity-app/server/routes/admin.js:389-399 | the file name starts with the type and ends in .csv or .json to match the content type |
| Users.GetProfile | ai-productivity-app/server/routes/user.js:8-19 | the profile is the caller's, and 404 exactly for an unknown caller |
| Users.ProfileOmitsOnlyGoogleId | ai-productivity-app/server/routes/user.js:10 | the profile shows every stored field except the Google id |
| Users.ApplyProfile | ai-productivity-app/server/routes/user.js:31-41 | an update fails exactly when the role is outside the three |
| Users.UpdateProfile | ai-productivity-app/server/routes/user.js:22-59 | 404 for an unknown caller, 500 exactly for an invalid role, and otherwise only the users change |
| Users.UpdateTouchesOnlyProfileFields | ai-productivity-app/server/routes/user.js:32-39 | the update writes the given mobile number, bio and role, keeps the omitted ones, and changes no other field and no other user |
| Users.CompletionRule | ai-productivity-app/server/routes/user.js:37-39 | a profile becomes complete once both mobile number and bio are non-empty and never becomes incomplete again; the reply reports it |
| Users.ClearingKeepsComplete | ai-productivity-app/server/routes/user.js:37-39 | clearing both fields of a complete profile leaves it complete |
| Users.UpdateIdempotent | ai-productivity-app/server/routes/user.js:22-59 | repeating an update gives the same state and reply |
| Users.SelfPromotion | ai-productivity-app/server/routes/user.js:34 | any user may set their own role to admin and then passes the admin check |
| Auth.Login | ai-productivity-app/server/routes/auth.js:8-52 | 400 without Google id, email or name; the token claims the returned user; the database changes only by appending a new user with the default fields |
| Auth.ReturningUserUnchanged | ai-productivity-app/server/routes/auth.js:17-19 | a known Google id signs in the stored user and writes nothing |
| Auth.LoginIdempotent | ai-productivity-app/server/routes/auth.js:17-28 | signing in again with the same details gives the same reply and writes nothing |
| Auth.NewUserCreated | ai-productivity-app/server/routes/auth.js:17-47 | a new Google id with present id, email and name and an unregistered email succeeds: exactly that one user is appended and the reply carries its id and email in the token claims and its view |
| Auth.FirstLoginDefaults | ai-productivity-app/server/routes/auth.js:20-28 | a first sign-in stores a volunteer with the default permissions, an incomplete profile, the given picture or "" and no contact |
| Auth.TakenEmailRefused | ai-productivity-app/server/models/User.js:9-13 | a new Google id with an email already stored fails to save (500) and writes nothing |
| Auth.VerifyToken | ai-productivity-app/server/routes/auth.js:55-69 | every failure is a 401; a missing header fails; success returns what the verifier reads from the header with its prefix removed |
| Auth.BearerHeader | ai-productivity-app/server/routes/auth.js:56-67 | a "Bearer " header passes exactly when its token is non-empty and accepted |
| Auth.HeaderWithoutPrefix | ai-productivity-app/server/routes/auth.js:56 | a non-empty header without the prefix is verified as a whole |
| AiService.TemplateFor | ai-productivity-app/server/services/aiService.js:112 | hackathon and workshop get their templates and any other type, or none, the conference template, which have at least one phase each; a name inherited from Object.prototype has no template |
| AiService.Capitalize | ai-productivity-app/server/services/aiService.js:116 | upper-cases the first character only |
| AiService.OrElse | ai-productivity-app/server/services/aiService.js:118-120 | a truthy value is used, otherwise the fallback |
| AiService.GenerateEventPlan | ai-productivity-app/server/services/aiService.js:4-131 | the plan fails (500) exactly when both name and type are missing or the type is inherited from Object.prototype; it keeps the type, defaults each missing detail, names the event after its type when unnamed, takes its phases and roles from the template its type selects, and carries three insights |
| AiService.ListedTypeGetsItsTemplate | ai-productivity-app/server/services/aiService.js:4-112 | a hackathon is planned with the hackathon template's phases and roles, a workshop with the workshop template's |
| AiService.UnknownTypeFallsBack | ai-productivity-app/server/services/aiService.js:112 | a planned type other than hackathon and workshop uses the conference template |
| AiService.FirstInsightQuotesLeadTime | ai-productivity-app/server/services/aiService.js:124 | the first insight quotes the first phase's duration |
| AiService.GenerateTaskSuggestions | ai-productivity-app/server/services/aiService.js:134-151 | three suggestions: optimization, resource, timeline |
| AiService.FirstSuggestionQuotesTitle | ai-productivity-app/server/services/aiService.js:139 | the first suggestion quotes the task title |
| AiService.LaterSuggestionsAreFixed | ai-productivity-app/server/services/aiService.js:141-148 | the second and third suggestions do not depend on the title |
| AiService.GenerateRoleSuggestions | ai-productivity-app/server/services/aiService.js:154-171 | hackathon gets its list and every other type the conference list, except a name inherited from Object.prototype, which finds no list |
| AiService.CeilDiv | ai-productivity-app/server/services/aiService.js:176 | the rounded-up quotient is the least multiple count covering the dividend |
| AiService.ReminderBuckets | ai-productivity-app/server/services/aiService.js:174-198 | due within a day past is critical, within a day ahead urgent, one to three days ahead normal, otherwise no reminder (also when due exactly now) |
| AiService.ReminderSpellingsAgree | ai-productivity-app/server/services/aiService.js:174-198 | the reminder as the file spells it and as intended agree on whether there is one, its kind and its actions |
| AiService.AsWrittenMarksAreMisread | ai-productivity-app/server/services/aiService.js:180-192 | each opening symbol of the file is the UTF-8 encoding of the alarm clock, police light or calendar emoji read as Windows-1252, and differs from that emoji |
| AiService.AsWrittenReminderShowsMojibake | ai-productivity-app/server/services/aiService.js:178-183 | a task due in exactly one day gets a message opening with "â" as written and with the alarm clock as intended |
| AiService.IntendedReminderOpensWithEmoji | ai-productivity-app/server/services/aiService.js:178-195 | every intended reminder opens with the emoji for its kind and a space |
| AiService.ReminderOpensWithMark | ai-productivity-app/server/services/aiService.js:178-195 | every reminder opens with the symbol for its kind followed by a space |
| AiService.NoDueDateNoReminder | ai-productivity-app/server/services/aiService.js:175-176 | a task without a due date gets no reminder |
| AiRoutes.PhaseLines | ai-productivity-app/server/routes/ai.js:47 | one bullet line per phase |
| AiRoutes.RoleLines | ai-productivity-app/server/routes/ai.js:47 | one bullet line per role |
| AiRoutes.InsightLines | ai-productivity-app/server/routes/ai.js:47 | one line per insight |
| AiRoutes.SectionsInclude | ai-productivity-app/server/routes/ai.js:47 | the announcement contains each of its parts |
| AiRoutes.PlanMessageListsPlan | ai-productivity-app/server/routes/ai.js:45-53 | the announcement names the event and lists every phase with its duration, every role and every insight |
| AiRoutes.GeneratePlan | ai-productivity-app/server/routes/ai.js:10-66 | 400 without channel or details; success needs a member of an existing channel, stores the request's details, the plan as a one-element action-plan array and the time on the channel, and appends one AI announcement |
| AiRoutes.GeneratePlanOutcomes | ai-productivity-app/server/routes/ai.js:19-33 | with both fields given: 404 for an unknown channel and 403 for a non-member, storing nothing; a member gets exactly the generator's answer, the plan or its 500 |
| AiRoutes.GeneratedPlanNamesEvent | ai-productivity-app/server/routes/ai.js:33-47 | the announcement names the event as the plan named it |
| AiRoutes.Classify | ai-productivity-app/server/routes/ai.js:94-103 | a question is about tasks exactly when it mentions "task" or "how to", and general exactly when it mentions none of the six keywords |
| AiRoutes.ClassifyIgnoresCase | ai-productivity-app/server/routes/ai.js:94-99 | the topic does not depend on letter case |
| AiRoutes.TaskKeywordWins | ai-productivity-app/server/routes/ai.js:94-96 | a question mentioning "task" before "role", in any case, is about tasks |
| AiRoutes.RoleBlocks | ai-productivity-app/server/routes/ai.js:98 | one block per suggested role |
| AiRoutes.Ask | ai-productivity-app/server/routes/ai.js:69-131 | 400 without channel or question; an answer exactly for members of an existing channel, stored as one AI message and matching the question's topic |
| AiRoutes.RoleAnswerQuotes | ai-productivity-app/server/routes/ai.js:97-98 | the role answer shows the first role and the team size |
| AiRoutes.RoleAnswerUsesChannel | ai-productivity-app/server/routes/ai.js:97-98 | the role answer uses the channel's member count and the hackathon or conference list by the channel's type |
| AiRoutes.AnswerQuotesQuestion | ai-productivity-app/server/routes/ai.js:94-103 | task and general answers quote the question as asked |
| AiRoutes.TaskSuggestionsRoute | ai-productivity-app/server/routes/ai.js:134-151 | 400 exactly for a falsy title; otherwise three suggestions, the first quoting the title |
| AiRoutes.StorePlan | ai-productivity-app/server/routes/ai.js:154-182 | succeeds exactly when the channel id is missing or ObjectId text (24 hex digits), then storing one AI message for a given id and nothing without one; a malformed id is 500 with nothing stored |
| AiRoutes.GeneratePlanPostsAiMessage | ai-productivity-app/server/routes/ai.js:45-53 | a generated plan adds exactly one message, without a sender, typed ai-response, flagged AI, in the requested channel |
| AiRoutes.AskPostsAiMessage | ai-productivity-app/server/routes/ai.js:106-118 | an answered question adds exactly one message, without a sender, typed ai-response, flagged AI, in the requested channel |
| AiRoutes.StorePlanPostsAiMessage | ai-productivity-app/server/routes/ai.js:159-172 | a plan posted by the backend adds exactly one message, without a sender, typed ai-response, flagged AI, in the channel the body names |
| Telegram.SendTaskUpdate | ai-productivity-app/server/services/telegramService.js:18-27 | nothing is sent without the bot or a contact; otherwise one message to that contact |
| Telegram.SendChannelNotification | ai-productivity-app/server/services/telegramService.js:29-44 | nothing without the bot or ids; otherwise the same message to each id in order |
| Telegram.ChannelNotificationReachesEveryId | ai-productivity-app/server/services/telegramService.js:36-38 | every listed id is sent the message |
| Telegram.GetStatusEmoji | ai-productivity-app/server/services/telegramService.js:75-84 | whatever the status, the emoji text has no line break |
| Telegram.StatusEmojiTable | ai-productivity-app/server/services/telegramService.js:75-84 | the pin exactly for statuses neither in the five-entry table nor inherited from Object.prototype; an inherited name such as "toString" shows that member's source text |
| Telegram.StatusEmojiDistinct | ai-productivity-app/server/services/telegramService.js:76-82 | the five listed statuses get five different emoji |
| Telegram.DoneGetsDefaultEmoji | ai-productivity-app/server/services/telegramService.js:76-83 | the kanban status "done" gets the default emoji |
| Telegram.TaskUpdateLines | ai-productivity-app/server/services/telegramService.js:51-59 | the update message has nine lines |
| Telegram.TaskUpdateLayout | ai-productivity-app/server/services/telegramService.js:46-60 | the message splits into its nine lines: the title on the third, the status change on the fifth, and blank description and priority lines exactly when those are falsy |
| Telegram.StatusLineUnbroken | ai-productivity-app/server/services/telegramService.js:55 | the status line has no line break when neither status has one |
| Telegram.TaskUpdateLinesUnbroken | ai-productivity-app/server/services/telegramService.js:51-59 | none of the nine lines has a line break when no field has one |
| Telegram.ChannelMessageQuotes | ai-productivity-app/server/services/telegramService.js:62-73 | the notification ends with the message and names the channel and sender |
| Kanban.Column | ai-productivity-app/src/components/KanbanBoard.jsx:52 | a status names a column exactly when it is one of the four keys |
| Kanban.WithColumn | ai-productivity-app/src/components/KanbanBoard.jsx:73 | replacing one column leaves the other three as they were |
| Kanban.TaskCreated | ai-productivity-app/src/components/KanbanBoard.jsx:49-53 | a created task is appended to the column of its status, the others unchanged; an unknown status throws |
| Kanban.MoveTask | ai-productivity-app/src/components/KanbanBoard.jsx:64-75 | a move fails exactly for a status outside the four columns |
| Kanban.StatusUpdated | ai-productivity-app/src/components/KanbanBoard.jsx:58-83 | a failed request leaves the board alone; a successful one moves the task |
| Kanban.RemovedHasNone | ai-productivity-app/src/components/KanbanBoard.jsx:68-70 | removing an id leaves no entry with it |
| Kanban.RemoveIdempotent | ai-productivity-app/src/components/KanbanBoard.jsx:68-70 | removing an id twice is removing it once |
| Kanban.AppendedRemoved | ai-productivity-app/src/components/KanbanBoard.jsx:68-73 | the appended task is the only entry with its id |
| Kanban.MovePlacesTaskOnce | ai-productivity-app/src/components/KanbanBoard.jsx:64-75 | after a move the task is on the board exactly once, last in its new column, and every other task keeps its column and order |
| Kanban.ColumnAfterMove | ai-productivity-app/src/components/KanbanBoard.jsx:64-75 | after a move each column holds the id once if it is the target and not at all otherwise, and keeps its other tasks in order |
| Kanban.RemovedLength | ai-productivity-app/src/components/KanbanBoard.jsx:68-70 | removing an id drops exactly the entries carrying it |
| Kanban.MoveKeepsTotal | ai-productivity-app/src/components/KanbanBoard.jsx:68-73 | moving a task that was on the board once keeps the number of tasks |
| Kanban.ServerStatusIsAColumn | ai-productivity-app/src/components/KanbanBoard.jsx:58-83 | every answer of the server's status route leads to a defined board |
| Kanban.Drop | ai-productivity-app/src/components/KanbanBoard.jsx:95-101 | a drop clears the drag state and moves the task only onto a different column |
| Kanban.ReplaceById | ai-productivity-app/src/components/KanbanBoard.jsx:348-350 | the entry with the id is replaced, every other entry kept |
| Kanban.DetailUpdateStaysInPlace | ai-productivity-app/src/components/KanbanBoard.jsx:343-353 | an edit keeps every column's ids in order and the board's size |
| Kanban.DetailUpdateIgnoresStatus | ai-productivity-app/src/components/KanbanBoard.jsx:343-353 | a task edited to a new status stays in its old column |
| Kanban.HighPriorityCountsBoard | ai-productivity-app/src/components/KanbanBoard.jsx:320-322 | the counter counts high and urgent tasks across the whole board and never exceeds the number of tasks |
| Chat.Incoming | ai-productivity-app/src/components/GlobalChat.jsx:41-52 | a message for another channel changes nothing; otherwise the message ends up listed, appended only when its id was new |
| Chat.IncomingIdempotent | ai-productivity-app/src/components/GlobalChat.jsx:44-49 | a repeated event has no further effect |
| Chat.IncomingKeepsIdsUnique | ai-productivity-app/src/components/GlobalChat.jsx:44-49 | incoming messages never make two entries share an id |
| Chat.StartSend | ai-productivity-app/src/components/GlobalChat.jsx:85-100 | a blank draft sends nothing; otherwise a temporary entry in state sending is appended, the draft cleared and the untrimmed text sent |
| Chat.ResolveSend | ai-productivity-app/src/components/GlobalChat.jsx:108-125 | entries with the temporary id become the server's message marked sent, or are marked failed; the others are kept |
| Chat.SendRoundTrip | ai-productivity-app/src/components/GlobalChat.jsx:85-125 | a send ends with exactly one new entry at the end: the server's message or the failed temporary one |
| Chat.SameMillisecondSendsShareEntry | ai-productivity-app/src/components/GlobalChat.jsx:90 | two sends in the same millisecond share a temporary id, so the first answer replaces both entries |
| Chat.FormatMessageTime | ai-productivity-app/src/components/GlobalChat.jsx:149-161 | under 24 hours the time, under 48 hours "Yesterday", otherwise the date |
| Chat.OlderIsCoarser | ai-productivity-app/src/components/GlobalChat.jsx:154-160 | an older message never gets a finer label than a newer one |
| InviteForm.FindAt | ai-productivity-app/src/components/InviteMemberModal.jsx:30 | finds the first '@', or reports that there is none |
| InviteForm.PlainSlice | ai-productivity-app/src/components/InviteMemberModal.jsx:30 | a slice of a text without whitespace or '@' has none either |
| InviteForm.PlainAround | ai-productivity-app/src/components/InviteMemberModal.jsx:30 | joining two such texts around such a character gives such a text |
| InviteForm.PatternIsValid | ai-productivity-app/src/components/InviteMemberModal.jsx:30-31 | every text the regular expression matches passes the decision procedure |
| InviteForm.DecompositionAt | ai-productivity-app/src/components/InviteMemberModal.jsx:30 | the '@' after a plain non-empty local part is the first '@' of the text |
| InviteForm.DecompositionDomain | ai-productivity-app/src/components/InviteMemberModal.jsx:30 | the text after that '@' is plain with an inner '.', a valid domain |
| InviteForm.ValidIsPattern | ai-productivity-app/src/components/InviteMemberModal.jsx:30-31 | every text passing the decision procedure matches the regular expression |
| InviteForm.ValidEmailIffPattern | ai-productivity-app/src/components/InviteMemberModal.jsx:30-31 | the decision procedure agrees with the regular expression on every text |
| InviteForm.ValidEmailShape | ai-productivity-app/src/components/InviteMemberModal.jsx:30 | an accepted address has no whitespace, exactly one '@' after a non-empty local part, and a '.' inside the domain |
| InviteForm.HandleSubmit | ai-productivity-app/src/components/InviteMemberModal.jsx:21-48 | a blank email is refused, then one not matching the pattern; otherwise the untrimmed email and the chosen role are posted |
| InviteForm.LeadingSpaceRejected | ai-productivity-app/src/components/InviteMemberModal.jsx:24-34 | a valid address typed with a leading space passes the blank check but fails the pattern |
| InviteForm.LeadingSpaceInvalid | ai-productivity-app/src/components/InviteMemberModal.jsx:24-31 | a valid address with a space in front is not blank and not a valid address |
| InviteForm.FormRoleIsKept | ai-productivity-app/src/components/InviteMemberModal.jsx:8-11 | a posted form names a role the server accepts, and a successful invitation carries that role |
| Dashboard.FilterUsers | ai-productivity-app/src/pages/AdminDashboard.jsx:112-117 | the filtered users are exactly those matching the search in name or email and the role filter |
| Dashboard.FilterChannels | ai-productivity-app/src/pages/AdminDashboard.jsx:119-123 | the filtered channels are exactly those whose name matches the search and whose status matches the filter |
| Dashboard.FiltersKeepOrder | ai-productivity-app/src/pages/AdminDashboard.jsx:112-123 | both filters keep the input order |
| Dashboard.EmptyFiltersKeepAll | ai-productivity-app/src/pages/AdminDashboard.jsx:112-123 | an empty search with no filter shows both lists whole |
| Dashboard.SearchIgnoresCase | ai-productivity-app/src/pages/AdminDashboard.jsx:113-120 | the search ignores the case of what is typed |
| Dashboard.DescriptionNotSearched | ai-productivity-app/src/pages/AdminDashboard.jsx:120 | a channel matching only in its description is not shown |
| Dashboard.LoadsData | ai-productivity-app/src/pages/AdminDashboard.jsx:33-39 | data is loaded exactly for a signed-in admin |
| Dashboard.GateAgreesWithServer | ai-productivity-app/src/pages/AdminDashboard.jsx:33-39 | the client gate agrees with the server's admin check on the same user |

## Left out

- GET /dashboard of the admin routes (admin.js:12-60): only counts and a recent-activity listing; not modelled.
- The aggregations of the analytics route (admin.js:272-344) are not modelled. The model keeps the permission check, the timeframe switch and the window filter.
- The users listing's regular-expression search (admin.js:72-77) is not modelled, and neither is its sort by creation date. Pagination is modelled on an already-filtered sequence.
- The JSON export body and the documents fetched for each export type are not modelled. Export rows are abstract key-value records, and `Object.keys` of a database document is not modelled.
- Null field values are not modelled. An optional field is either missing or holds a value.
- `parseInt` is modelled only by its result (a number or NaN), not by how it parses text.
- Floating point is not modelled. `Math.round` of a percentage and `Math.ceil` of a quotient are written in integers.
- JWT signing and verification are not modelled. The verifier is a parameter of `Auth.VerifyToken`, and the token a login issues is modelled by its claims.
- server/middleware/auth.js and the route mounting in server/server.js are not part of this model. The caller's id is an input of every route.
- Access.RequireChannelAccess has no contract of its own. Its behaviour is stated by the lemmas about it in the Access module.
- Channels.PendingInvitations: the listing is a set of entries. The source answers an array in the order the database returns the channels, and that order is not modelled.
- Channels.MyChannels: the listing is a set, because the sort by last update is not modelled. The same holds for the my-tasks listing (Tasks.MyTasks) and its sort by due date.
- Date formatting (`toLocaleString`, `format`) is not modelled. Each time text is a parameter, and Chat.FormatMessageTime returns the kind of label.
- Socket.io events, Telegram network delivery, awaiting and concurrency are not modelled. The send attempts are an outbox, and races between requests are not modelled.
- The other Telegram senders are not modelled: welcome, task completed, plan generated, role assignment, milestone and export ready (telegramService.js:86-244). No modelled route calls them.
- The Python AI backend (ai-backend/) is not modelled.
- Client fetch handlers, toasts, rendering and getMessageStatus are not modelled. Only the state updates are.
- The client-side export download in AdminDashboard.jsx is not modelled.
- Tasks.UpdateStatus: the 500 of a dangling member after the status is written is stated as "the state changed, so the error is 500". The model does not state which step failed.
- AiService.GenerateEventPlan: the `requirements` detail is not modelled. The mock ignores it.
- Identifiers are strings, and a request's id that names no stored document is answered as not found. In the source a malformed id (one that is not 24 hexadecimal digits) makes `findById` throw a cast error, answered 500, in the channel, task and admin routes (channel.js:246, task.js:135, admin.js:228-250). Only the store-plan route, which saves a message whose channel field is the request's id, models the cast failure.
- Mongoose accepts a few other forms of ObjectId (a 12-character string, for one); `Models.ObjectIdText` admits only the 24-digit hexadecimal form.
- Access.InheritedPermissionPassesEveryone: only the Object.prototype members are modelled as truthy properties of a user's permissions. A Mongoose document carries further methods and internal fields that would also read as truthy, and those are not modelled. No route of the source passes a non-literal permission name.
- AiService.Capitalize: the first letter is upper-cased only in the ASCII range. `toUpperCase` maps all of Unicode, and can lengthen the text ("ß" becomes "SS").
- AiRoutes.Classify: the question is lower-cased only in the ASCII range. `toLowerCase` maps all of Unicode, so "TAS" followed by KELVIN SIGN (U+212A) would read as "task" in the source but not in the model.
- Dashboard.FilterUsers: the search is case-insensitive only for ASCII letters, where the client's `toLowerCase` covers all of Unicode.
- Dashboard.FilterChannels: the search is case-insensitive only for ASCII letters, where the client's `toLowerCase` covers all of Unicode.
- AiService.SmartReminder has no contract of its own. Its behaviour is stated by AiService.ReminderBuckets, AiService.ReminderSpellingsAgree and AiService.IntendedReminderOpensWithEmoji.
- Text.InheritedText renders a built-in function the way V8 does (`function toString() { [native code] }`). Another engine may print it differently.
- The minimum role of requireChannelAccess (admin.js:101-102) is modelled by Access.RoleLevel with no case for Object.prototype names. Such a name would look up a function, and comparing a level with it is always false, so the check would pass. That is the volunteer level's outcome, so Access.UnknownMinRoleIsVolunteer still describes it.

## Findings

| source | as written | input that shows it | evidently intended | confidence | as-written member | corrected member |
|---|---|---|---|---|---|---|
| ai-productivity-app/server/routes/channel.js:209-230 | the channel query matches the caller's email and a pending status on possibly different invitations, then reads the pending one with `find`, which can be undefined | a channel where the caller's invitation is accepted and another email's is pending | list only channels holding a pending invitation for the caller's email (one element matching both) | high, not executed | Channels.PendingAsWrittenFailsOnMixedInvitations | Channels.PendingInvitationsExact |
| ai-productivity-app/server/routes/channel.js:259-262 | sorts by creation time ascending and keeps the first 100 | a channel with 101 messages: the newest is dropped | the latest 100 messages, shown oldest first | high, not executed | Channels.ListMessagesAsWrittenDropsNewest | Channels.ListMessagesIsLatest |
| ai-productivity-app/server/routes/admin.js:196-207 | counts tasks whose status is "completed", a status the task routes never write | a channel with one task moved to "done" | count the kanban's finished status "done" | medium (the Task schema is not part of this model), not executed | Admin.AsWrittenProgressIgnoresDone | Admin.CorrectedProgressCountsDone |
| ai-productivity-app/server/services/aiService.js:180-192 | the three reminder messages open with U+00E2 U+00B0, U+00F0 U+0178 U+0161 U+00A8 and U+00F0 U+0178 U+201C U+2026: the UTF-8 bytes of three emoji read back as Windows-1252 | any task due in exactly one day: the message starts with "â°" | open with the alarm clock, police light and calendar emoji | high, not executed | AiService.AsWrittenReminderShowsMojibake | AiService.IntendedReminderOpensWithEmoji |

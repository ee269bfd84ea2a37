/** The deterministic "AI" service of server/services/aiService.js: fixed plan
    templates per event type, three canned task suggestions, per-type role
    suggestions and a due-date reminder rule. */
module AiService {
  import opened Wrappers
  import opened Text

  datatype PlanTask = PlanTask(title: string, priority: string, estimatedHours: nat)
  datatype Phase = Phase(phase: string, duration: string, tasks: seq<PlanTask>)
  datatype RoleTemplate = RoleTemplate(role: string, responsibilities: seq<string>)
  datatype Template = Template(phases: seq<Phase>, roles: seq<RoleTemplate>)

  const HackathonTemplate: Template := Template(
    [ Phase("Pre-Event Planning", "4-6 weeks", [
        PlanTask("Define hackathon theme and problem statements", "high", 8),
        PlanTask("Secure venue and technical infrastructure", "high", 12),
        PlanTask("Partner with sponsors and mentors", "medium", 16),
        PlanTask("Set up registration platform", "medium", 6),
        PlanTask("Create marketing materials and social media campaign", "medium", 10)]),
      Phase("Event Execution", "2-3 days", [
        PlanTask("Set up registration and welcome desk", "high", 4),
        PlanTask("Coordinate opening ceremony and keynotes", "high", 6),
        PlanTask("Manage technical support and mentoring", "high", 24),
        PlanTask("Organize meals and refreshments", "medium", 8),
        PlanTask("Facilitate judging and award ceremony", "high", 6)]),
      Phase("Post-Event", "1-2 weeks", [
        PlanTask("Collect feedback from participants", "medium", 4),
        PlanTask("Share results and winner announcements", "high", 3),
        PlanTask("Process payments and reimbursements", "high", 6),
        PlanTask("Create event report and documentation", "low", 8)]) ],
    [ RoleTemplate("Event Coordinator", ["Overall planning", "Timeline management", "Stakeholder communication"]),
      RoleTemplate("Technical Lead", ["Infrastructure setup", "Technical support", "Platform management"]),
      RoleTemplate("Marketing Manager", ["Promotion", "Social media", "Participant engagement"]),
      RoleTemplate("Logistics Coordinator", ["Venue management", "Catering", "Material procurement"]) ])

  const ConferenceTemplate: Template := Template(
    [ Phase("Planning & Preparation", "8-12 weeks", [
        PlanTask("Define conference agenda and speakers", "high", 20),
        PlanTask("Book venue and arrange AV equipment", "high", 15),
        PlanTask("Set up registration and ticketing system", "high", 8),
        PlanTask("Coordinate with speakers and sponsors", "medium", 25),
        PlanTask("Plan catering and networking sessions", "medium", 12)]),
      Phase("Event Day", "1-2 days", [
        PlanTask("Manage registration and check-in", "high", 6),
        PlanTask("Coordinate speaker sessions and Q&A", "high", 16),
        PlanTask("Facilitate networking breaks", "medium", 4),
        PlanTask("Handle technical support", "high", 12),
        PlanTask("Manage live streaming and recordings", "medium", 8)]) ],
    [ RoleTemplate("Conference Director", ["Strategic planning", "Speaker coordination", "Overall execution"]),
      RoleTemplate("Program Manager", ["Agenda management", "Session coordination", "Content quality"]),
      RoleTemplate("Operations Manager", ["Venue logistics", "Vendor management", "Day-of coordination"]) ])

  const WorkshopTemplate: Template := Template(
    [ Phase("Content Development", "3-4 weeks", [
        PlanTask("Design workshop curriculum and materials", "high", 16),
        PlanTask("Prepare hands-on exercises and examples", "high", 12),
        PlanTask("Set up learning environment and tools", "medium", 8),
        PlanTask("Create participant resources and handouts", "medium", 6)]),
      Phase("Workshop Delivery", "1 day", [
        PlanTask("Set up workshop space and materials", "high", 2),
        PlanTask("Facilitate interactive learning sessions", "high", 8),
        PlanTask("Provide individual guidance and support", "medium", 4),
        PlanTask("Collect feedback and evaluate outcomes", "medium", 2)]) ],
    [ RoleTemplate("Workshop Facilitator", ["Content delivery", "Participant engagement", "Learning outcomes"]),
      RoleTemplate("Technical Assistant", ["Setup support", "Technical troubleshooting", "Material distribution"]) ])

  /** `eventPlans[eventType] || eventPlans.conference`.  A type the table lists gets its
      template and any other type (or none) the conference template, except a name
      inherited from Object.prototype: that finds a function, which has no phases, so
      reading the first phase's duration throws (None). */
  function TemplateFor(eventType: Option<string>): (t: Option<Template>)
    ensures t.None? <==> eventType.Some? && Inherited(eventType.value)
    ensures t.Some? ==> |t.value.phases| > 0
    ensures eventType == Some("hackathon") ==> t == Some(HackathonTemplate)
    ensures eventType == Some("workshop") ==> t == Some(WorkshopTemplate)
    ensures t.Some? && eventType != Some("hackathon") && eventType != Some("workshop") ==> t == Some(ConferenceTemplate)
  {
    match eventType
    case Some("hackathon") => Some(HackathonTemplate)
    case Some("workshop") => Some(WorkshopTemplate)
    case Some(k) => if Inherited(k) then None else Some(ConferenceTemplate)
    case None => Some(ConferenceTemplate)
  }

  /** The request's `eventDetails`; every field may be missing. */
  datatype EventDetails = EventDetails(
    eventType: Option<string>,
    eventName: Option<string>,
    duration: Option<string>,
    budget: Option<string>,
    attendees: Option<string>,
    requirements: Option<string>)

  datatype EventPlan = EventPlan(
    eventName: string,
    eventType: Option<string>,
    estimatedDuration: string,
    recommendedBudget: string,
    expectedAttendees: string,
    phases: seq<Phase>,
    recommendedRoles: seq<RoleTemplate>,
    aiInsights: seq<string>,
    generatedAt: int)

  /** `s.charAt(0).toUpperCase() + s.slice(1)`. */
  function Capitalize(s: string): (r: string)
    ensures |r| == |s|
    ensures |s| > 0 ==> r[0] == UpperChar(s[0]) && r[1..] == s[1..]
  {
    if |s| == 0 then "" else [UpperChar(s[0])] + s[1..]
  }

  /** `a || b` for string fields: a missing or empty value gives the fallback. */
  function OrElse(a: Option<string>, fallback: string): (r: string)
    ensures Truthy(a) ==> r == a.value
    ensures !Truthy(a) ==> r == fallback
  {
    if Truthy(a) then a.value else fallback
  }

  const DefaultDuration: string := "2-3 days"
  const DefaultBudget: string := "Contact for estimate"
  const DefaultAttendees: string := "50-100"

  function FirstInsight(eventType: Option<string>, phases: seq<Phase>): string
    requires |phases| > 0
  {
    "Based on your " + Interpolate(eventType) + " requirements, I recommend starting planning "
      + phases[0].duration + " in advance."
  }

  const SecondInsight: string :=
    "Key success factors: Strong technical infrastructure, clear communication, and engaged participants."
  const ThirdInsight: string :=
    "Consider having backup plans for critical components like venue, speakers, and technology."

  /** generateEventPlan.  The default name reads `eventType.charAt(0)`, which throws
      when the name is missing and the type is missing as well; a type inherited from
      Object.prototype throws when the first insight reads the template's first phase. */
  function GenerateEventPlan(d: EventDetails, now: int): (r: Result<EventPlan>)
    ensures r.Err? <==> (!Truthy(d.eventName) && d.eventType.None?) || (d.eventType.Some? && Inherited(d.eventType.value))
    ensures r.Err? ==> r.error == ServerError
    ensures r.Ok? ==> r.value.eventType == d.eventType && r.value.generatedAt == now
    ensures r.Ok? ==>
      r.value.eventName == (if Truthy(d.eventName) then d.eventName.value else Capitalize(d.eventType.value) + " Event")
    ensures r.Ok? ==> r.value.estimatedDuration == OrElse(d.duration, DefaultDuration)
    ensures r.Ok? ==> r.value.recommendedBudget == OrElse(d.budget, DefaultBudget)
    ensures r.Ok? ==> r.value.expectedAttendees == OrElse(d.attendees, DefaultAttendees)
    ensures r.Ok? ==> |r.value.aiInsights| == 3 && |r.value.phases| > 0
    ensures r.Ok? ==>
      && TemplateFor(d.eventType).Some?
      && r.value.phases == TemplateFor(d.eventType).value.phases
      && r.value.recommendedRoles == TemplateFor(d.eventType).value.roles
  {
    if !Truthy(d.eventName) && d.eventType.None? then Err(ServerError)
    else if TemplateFor(d.eventType).None? then Err(ServerError)
    else
      var base := TemplateFor(d.eventType).value;
      var name := if Truthy(d.eventName) then d.eventName.value else Capitalize(d.eventType.value) + " Event";
      Ok(EventPlan(
        name,
        d.eventType,
        OrElse(d.duration, DefaultDuration),
        OrElse(d.budget, DefaultBudget),
        OrElse(d.attendees, DefaultAttendees),
        base.phases,
        base.roles,
        [FirstInsight(d.eventType, base.phases), SecondInsight, ThirdInsight],
        now))
  }

  /** An event type without a template of its own is planned with the conference template. */
  lemma UnknownTypeFallsBack(d: EventDetails, now: int)
    requires d.eventType != Some("hackathon") && d.eventType != Some("workshop")
    requires GenerateEventPlan(d, now).Ok?
    ensures GenerateEventPlan(d, now).value.phases == ConferenceTemplate.phases
    ensures GenerateEventPlan(d, now).value.recommendedRoles == ConferenceTemplate.roles
  {
  }

  /** A hackathon is planned with the hackathon template and a workshop with the workshop
      template, phases and roles alike. */
  lemma ListedTypeGetsItsTemplate(d: EventDetails, now: int)
    requires GenerateEventPlan(d, now).Ok?
    ensures d.eventType == Some("hackathon") ==>
      && GenerateEventPlan(d, now).value.phases == HackathonTemplate.phases
      && GenerateEventPlan(d, now).value.recommendedRoles == HackathonTemplate.roles
    ensures d.eventType == Some("workshop") ==>
      && GenerateEventPlan(d, now).value.phases == WorkshopTemplate.phases
      && GenerateEventPlan(d, now).value.recommendedRoles == WorkshopTemplate.roles
  {
  }

  /** The first insight quotes the lead time of the plan's first phase. */
  lemma FirstInsightQuotesLeadTime(d: EventDetails, now: int)
    requires GenerateEventPlan(d, now).Ok?
    ensures var p := GenerateEventPlan(d, now).value;
      Includes(p.aiInsights[0], p.phases[0].duration)
  {
    var p := GenerateEventPlan(d, now).value;
    IncludesInfix("Based on your " + Interpolate(d.eventType) + " requirements, I recommend starting planning ",
      p.phases[0].duration, " in advance.");
  }

  datatype SuggestionKind = Optimization | Resource | Timeline
  datatype TaskSuggestion = TaskSuggestion(kind: SuggestionKind, suggestion: string)

  const ResourceSuggestion: string :=
    "You might need additional resources or team members for this task. Consider delegating or requesting support."
  const TimelineSuggestion: string :=
    "Based on similar tasks, this might take longer than estimated. Consider adding buffer time."
  const OptimizationTail: string :=
    "\", consider breaking this into smaller subtasks for better tracking and team collaboration."

  /** generateTaskSuggestions: the same three suggestions for every task; only the first
      mentions the task. */
  function GenerateTaskSuggestions(taskTitle: string): (r: seq<TaskSuggestion>)
    ensures |r| == 3
    ensures r[0].kind == Optimization && r[1].kind == Resource && r[2].kind == Timeline
  {
    [ TaskSuggestion(Optimization, "For \"" + taskTitle + OptimizationTail),
      TaskSuggestion(Resource, ResourceSuggestion),
      TaskSuggestion(Timeline, TimelineSuggestion) ]
  }

  lemma FirstSuggestionQuotesTitle(taskTitle: string)
    ensures Includes(GenerateTaskSuggestions(taskTitle)[0].suggestion, taskTitle)
  {
    IncludesInfix("For \"", taskTitle, OptimizationTail);
  }

  /** The other two suggestions do not depend on the task at all. */
  lemma LaterSuggestionsAreFixed(a: string, b: string)
    ensures GenerateTaskSuggestions(a)[1..] == GenerateTaskSuggestions(b)[1..]
  {
  }

  datatype RoleSuggestion = RoleSuggestion(role: string, skills: seq<string>, priority: string)

  const HackathonRoles: seq<RoleSuggestion> := [
    RoleSuggestion("Event Coordinator", ["Project Management", "Communication"], "essential"),
    RoleSuggestion("Technical Lead", ["Software Development", "Infrastructure"], "essential"),
    RoleSuggestion("Mentor Coordinator", ["Networking", "Industry Knowledge"], "important"),
    RoleSuggestion("Marketing Manager", ["Social Media", "Content Creation"], "important"),
    RoleSuggestion("Logistics Coordinator", ["Operations", "Vendor Management"], "helpful") ]

  const ConferenceRoles: seq<RoleSuggestion> := [
    RoleSuggestion("Conference Director", ["Leadership", "Strategic Planning"], "essential"),
    RoleSuggestion("Program Manager", ["Content Curation", "Speaker Management"], "essential"),
    RoleSuggestion("Operations Manager", ["Event Operations", "Logistics"], "important"),
    RoleSuggestion("Marketing Specialist", ["Digital Marketing", "PR"], "important") ]

  /** generateRoleSuggestions: `roleSuggestions[eventType] || roleSuggestions.conference`;
      team size and skills are accepted and ignored.  A name inherited from Object.prototype
      finds a function instead of a list (None). */
  function GenerateRoleSuggestions(eventType: string, teamSize: nat): (r: Option<seq<RoleSuggestion>>)
    ensures r.None? <==> Inherited(eventType)
    ensures eventType == "hackathon" ==> r == Some(HackathonRoles)
    ensures eventType != "hackathon" && !Inherited(eventType) ==> r == Some(ConferenceRoles)
  {
    if eventType == "hackathon" then Some(HackathonRoles)
    else if Inherited(eventType) then None
    else Some(ConferenceRoles)
  }

  const MsPerDay: int := 86400000

  /** `Math.ceil(a / b)` for a positive divisor, on integers. */
  function CeilDiv(a: int, b: int): (q: int)
    requires b > 0
    ensures (q - 1) * b < a <= q * b
  {
    -((-a) / b)
  }

  datatype ReminderKind = Urgent | Critical | Normal
  datatype Reminder = Reminder(message: string, kind: ReminderKind, actions: seq<string>)

  /** The symbol each reminder message opens with. */
  datatype ReminderMarks = ReminderMarks(urgent: string, critical: string, normal: string)

  /** The marks as the source file spells them: each is the UTF-8 encoding of an emoji
      read back as Windows-1252 text. */
  const AsWrittenMarks: ReminderMarks :=
    ReminderMarks("\U{E2}\U{B0}", "\U{F0}\U{178}\U{161}\U{A8}", "\U{F0}\U{178}\U{201C}\U{2026}")

  /** The emoji meant: alarm clock, police light, calendar. */
  const IntendedMarks: ReminderMarks := ReminderMarks("\U{23F0}", "\U{1F6A8}", "\U{1F4C5}")

  /** generateSmartReminder, with the opening symbols as a parameter.  `timeUntilDue` is the
      due date minus `now` in milliseconds; a missing due date and a difference of exactly
      zero are both falsy and give no reminder. */
  function ReminderWith(marks: ReminderMarks, dueDate: Option<int>, now: int, userName: string, title: string): (r: Option<Reminder>)
  {
    if dueDate.None? || dueDate.value - now == 0 then None
    else
      var days := CeilDiv(dueDate.value - now, MsPerDay);
      if days == 1 then
        Some(Reminder(marks.urgent + UrgentText(userName, title), Urgent, ["Mark as done", "Request extension", "Ask for help"]))
      else if days == 0 then
        Some(Reminder(marks.critical + CriticalText(title), Critical, ["Mark as done", "Request emergency help", "Reassign task"]))
      else if 1 < days <= 3 then
        Some(Reminder(marks.normal + NormalText(title, days), Normal, ["Update progress", "Mark as done", "Add comment"]))
      else None
  }

  /** The message texts after the opening symbol; each starts with a space. */
  function UrgentText(userName: string, title: string): (t: string)
    ensures |t| > 0 && t[0] == ' '
  {
    " Hey " + userName + "! Your task \"" + title + "\" is due tomorrow. Do you need any help or want to extend the deadline?"
  }

  function CriticalText(title: string): (t: string)
    ensures |t| > 0 && t[0] == ' '
  {
    " Task \"" + title + "\" is due today! Let me know if you need support to complete it."
  }

  function NormalText(title: string, days: nat): (t: string)
    ensures |t| > 0 && t[0] == ' '
  {
    " Reminder: \"" + title + "\" is due in " + NatToString(days) + " days. You're doing great - keep it up!"
  }

  /** The opening symbol of a reminder of the given kind. */
  function MarkFor(marks: ReminderMarks, kind: ReminderKind): string {
    match kind
    case Urgent => marks.urgent
    case Critical => marks.critical
    case Normal => marks.normal
  }

  /** Every reminder opens with the symbol for its kind, followed by a space. */
  lemma ReminderOpensWithMark(marks: ReminderMarks, dueDate: Option<int>, now: int, userName: string, title: string)
    requires ReminderWith(marks, dueDate, now, userName, title).Some?
    ensures var r := ReminderWith(marks, dueDate, now, userName, title).value;
      var m := MarkFor(marks, r.kind);
      |r.message| > |m| && r.message[..|m|] == m && r.message[|m|] == ' '
  {
    var days := CeilDiv(dueDate.value - now, MsPerDay);
    if days == 1 {
      MarkThenSpace(marks.urgent, UrgentText(userName, title));
    } else if days == 0 {
      MarkThenSpace(marks.critical, CriticalText(title));
    } else {
      MarkThenSpace(marks.normal, NormalText(title, days));
    }
  }

  lemma MarkThenSpace(m: string, t: string)
    requires |t| > 0 && t[0] == ' '
    ensures |m + t| > |m| && (m + t)[..|m|] == m && (m + t)[|m|] == ' '
  {
    assert (m + t)[..|m|] == m;
  }

  /** generateSmartReminder as the source file spells it. */
  function SmartReminderAsWritten(dueDate: Option<int>, now: int, userName: string, title: string): (r: Option<Reminder>) {
    ReminderWith(AsWrittenMarks, dueDate, now, userName, title)
  }

  /** generateSmartReminder with the emoji its authors meant. */
  function SmartReminder(dueDate: Option<int>, now: int, userName: string, title: string): (r: Option<Reminder>) {
    ReminderWith(IntendedMarks, dueDate, now, userName, title)
  }

  /** The marks are all that tells the two apart: both give a reminder of the same kind
      with the same actions or none at all. */
  lemma ReminderSpellingsAgree(dueDate: Option<int>, now: int, userName: string, title: string)
    ensures SmartReminder(dueDate, now, userName, title).None? <==> SmartReminderAsWritten(dueDate, now, userName, title).None?
    ensures SmartReminder(dueDate, now, userName, title).Some? ==>
      && SmartReminder(dueDate, now, userName, title).value.kind == SmartReminderAsWritten(dueDate, now, userName, title).value.kind
      && SmartReminder(dueDate, now, userName, title).value.actions == SmartReminderAsWritten(dueDate, now, userName, title).value.actions
  {
  }

  /** UTF-8 encoding of one code point, as bytes. */
  function Utf8(cp: nat): (bs: seq<nat>)
    requires cp < 0x11_0000
    ensures 1 <= |bs| <= 4 && forall i :: 0 <= i < |bs| ==> bs[i] < 256
  {
    if cp < 0x80 then [cp]
    else if cp < 0x800 then [0xC0 + cp / 0x40, 0x80 + cp % 0x40]
    else if cp < 0x1_0000 then [0xE0 + cp / 0x1000, 0x80 + cp / 0x40 % 0x40, 0x80 + cp % 0x40]
    else [0xF0 + cp / 0x4_0000, 0x80 + cp / 0x1000 % 0x40, 0x80 + cp / 0x40 % 0x40, 0x80 + cp % 0x40]
  }

  /** Windows-1252 decoding of one byte; the five bytes it leaves undefined are lost. */
  function Cp1252(b: nat): (s: string)
    requires b < 256
    ensures |s| <= 1
  {
    if b < 0x80 || 0xA0 <= b then [b as char]
    else
      var table := [0x20AC, 0, 0x201A, 0x0192, 0x201E, 0x2026, 0x2020, 0x2021,
                    0x02C6, 0x2030, 0x0160, 0x2039, 0x0152, 0, 0x017D, 0,
                    0, 0x2018, 0x2019, 0x201C, 0x201D, 0x2022, 0x2013, 0x2014,
                    0x02DC, 0x2122, 0x0161, 0x203A, 0x0153, 0, 0x017E, 0x0178];
      var cp := table[b - 0x80];
      if cp == 0 then "" else [cp as char]
  }

  /** A byte string decoded as Windows-1252. */
  function Cp1252Text(bs: seq<nat>): string
    requires forall i :: 0 <= i < |bs| ==> bs[i] < 256
  {
    if |bs| == 0 then "" else Cp1252(bs[0]) + Cp1252Text(bs[1..])
  }

  /** An emoji's UTF-8 bytes read as Windows-1252. */
  function Misread(cp: nat): string
    requires cp < 0x11_0000
  {
    Cp1252Text(Utf8(cp))
  }

  lemma Cp1252Text3(a: nat, b: nat, c: nat)
    requires a < 256 && b < 256 && c < 256
    ensures Cp1252Text([a, b, c]) == Cp1252(a) + Cp1252(b) + Cp1252(c)
  {
    assert [a, b, c][1..] == [b, c];
    assert [b, c][1..] == [c];
    assert [c][1..] == [];
    assert Cp1252Text([c]) == Cp1252(c) + "";
    assert Cp1252(c) + "" == Cp1252(c);
  }

  lemma Cp1252Text4(a: nat, b: nat, c: nat, d: nat)
    requires a < 256 && b < 256 && c < 256 && d < 256
    ensures Cp1252Text([a, b, c, d]) == Cp1252(a) + Cp1252(b) + Cp1252(c) + Cp1252(d)
  {
    assert [a, b, c, d][1..] == [b, c, d];
    Cp1252Text3(b, c, d);
  }

  /** The urgent mark: E2 8F B0 read as "\U{E2}", nothing, "\U{B0}". */
  lemma UrgentMarkMisread()
    ensures AsWrittenMarks.urgent == Misread(0x23F0)
  {
    assert Utf8(0x23F0) == [0xE2, 0x8F, 0xB0];
    Cp1252Text3(0xE2, 0x8F, 0xB0);
    assert Cp1252(0x8F) == "";
  }

  /** The critical mark: F0 9F 9A A8. */
  lemma CriticalMarkMisread()
    ensures AsWrittenMarks.critical == Misread(0x1F6A8)
  {
    assert Utf8(0x1F6A8) == [0xF0, 0x9F, 0x9A, 0xA8];
    Cp1252Text4(0xF0, 0x9F, 0x9A, 0xA8);
    assert Cp1252(0x9F) == "\U{178}" && Cp1252(0x9A) == "\U{161}";
  }

  /** The normal mark: F0 9F 93 85. */
  lemma NormalMarkMisread()
    ensures AsWrittenMarks.normal == Misread(0x1F4C5)
  {
    assert Utf8(0x1F4C5) == [0xF0, 0x9F, 0x93, 0x85];
    Cp1252Text4(0xF0, 0x9F, 0x93, 0x85);
    assert Cp1252(0x93) == "\U{201C}" && Cp1252(0x85) == "\U{2026}";
  }

  /** Each mark of the source file is the Windows-1252 misreading of the intended emoji, so
      a user is shown "\U{E2}\U{B0} Hey ..." where an alarm clock was meant. */
  lemma AsWrittenMarksAreMisread()
    ensures AsWrittenMarks.urgent == Misread(0x23F0) && AsWrittenMarks.critical == Misread(0x1F6A8)
      && AsWrittenMarks.normal == Misread(0x1F4C5)
    ensures IntendedMarks == ReminderMarks([0x23F0 as char], [0x1F6A8 as char], [0x1F4C5 as char])
    ensures AsWrittenMarks.urgent != IntendedMarks.urgent && AsWrittenMarks.critical != IntendedMarks.critical
      && AsWrittenMarks.normal != IntendedMarks.normal
  {
    UrgentMarkMisread();
    CriticalMarkMisread();
    NormalMarkMisread();
  }

  /** A task due within the coming day gets a different message as written than intended:
      the as-written one opens with "\U{E2}", the intended one with the alarm clock. */
  lemma AsWrittenReminderShowsMojibake(now: int, userName: string, title: string)
    ensures SmartReminderAsWritten(Some(now + MsPerDay), now, userName, title).value.message[0] == '\U{E2}'
    ensures SmartReminder(Some(now + MsPerDay), now, userName, title).value.message[0] == '\U{23F0}'
  {
  }

  /** The intended messages open with their emoji followed by a space. */
  lemma IntendedReminderOpensWithEmoji(due: int, now: int, userName: string, title: string)
    requires SmartReminder(Some(due), now, userName, title).Some?
    ensures var r := SmartReminder(Some(due), now, userName, title).value;
      var mark := match r.kind case Urgent => '\U{23F0}' case Critical => '\U{1F6A8}' case Normal => '\U{1F4C5}';
      |r.message| > 2 && r.message[0] == mark && r.message[1] == ' '
  {
    ReminderOpensWithMark(IntendedMarks, Some(due), now, userName, title);
    var r := SmartReminder(Some(due), now, userName, title).value;
    assert r.message[..1] == MarkFor(IntendedMarks, r.kind);
    assert r.message[0] == r.message[..1][0];
  }

  /** The reminder rule in terms of the time left, `ms`: critical only while the task is
      less than a day overdue, urgent for the coming day, normal for the two days after,
      nothing otherwise. */
  lemma ReminderBuckets(due: int, now: int, userName: string, title: string)
    ensures var r := SmartReminder(Some(due), now, userName, title);
      var ms := due - now;
      && (r.Some? && r.value.kind == Critical <==> -MsPerDay < ms < 0)
      && (r.Some? && r.value.kind == Urgent <==> 0 < ms <= MsPerDay)
      && (r.Some? && r.value.kind == Normal <==> MsPerDay < ms <= 3 * MsPerDay)
      && (r.None? <==> ms <= -MsPerDay || ms == 0 || 3 * MsPerDay < ms)
  {
    var ms := due - now;
    if ms != 0 {
      var days := CeilDiv(ms, MsPerDay);
      assert (days - 1) * MsPerDay < ms <= days * MsPerDay;
      if days <= -1 {
        assert days * MsPerDay <= -MsPerDay;
      } else if days >= 4 {
        assert (days - 1) * MsPerDay >= 3 * MsPerDay;
      }
    }
  }

  /** Without a due date there is never a reminder. */
  lemma NoDueDateNoReminder(now: int, userName: string, title: string)
    ensures SmartReminder(None, now, userName, title).None?
  {
  }
}

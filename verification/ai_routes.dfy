/** The handlers of server/routes/ai.js: generate-plan, ask with its keyword classifier,
    task-suggestions and store-plan.  Every message they create is authored by the AI:
    no sender, type ai-response. */
module AiRoutes {
  import opened Wrappers
  import opened Text
  import opened Models
  import opened AiService

  // ---------------------------------------------------------------- generate-plan

  datatype PlanRequest = PlanRequest(channelId: Option<ChannelId>, eventDetails: Option<EventDetails>)

  function PhaseLine(p: Phase): string {
    "\U{2022} " + p.phase + " (" + p.duration + ")"
  }

  function RoleLine(r: RoleTemplate): string {
    "\U{2022} " + r.role
  }

  function InsightLine(i: string): string {
    "\U{1F4A1} " + i
  }

  function PhaseLines(ps: seq<Phase>): (ls: seq<string>)
    ensures |ls| == |ps| && forall i :: 0 <= i < |ps| ==> ls[i] == PhaseLine(ps[i])
  {
    seq(|ps|, i requires 0 <= i < |ps| => PhaseLine(ps[i]))
  }

  function RoleLines(rs: seq<RoleTemplate>): (ls: seq<string>)
    ensures |ls| == |rs| && forall i :: 0 <= i < |rs| ==> ls[i] == RoleLine(rs[i])
  {
    seq(|rs|, i requires 0 <= i < |rs| => RoleLine(rs[i]))
  }

  function InsightLines(xs: seq<string>): (ls: seq<string>)
    ensures |ls| == |xs| && forall i :: 0 <= i < |xs| ==> ls[i] == InsightLine(xs[i])
  {
    seq(|xs|, i requires 0 <= i < |xs| => InsightLine(xs[i]))
  }

  const PlanHeading: string := "\U{1F916} **AI Event Plan Generated!**\n\n"

  function EventLine(name: string): string {
    "**Event:** " + name
  }

  function PlanDetails(p: EventPlan): string {
    "\n**Type:** " + Interpolate(p.eventType) + "\n**Duration:** " + p.estimatedDuration + "\n\n**Key Phases:**\n"
  }

  /** The announcement up to the phase list: the heading, the event line, the type and
      duration lines and the phase heading. */
  function PlanIntro(p: EventPlan): string {
    PlanHeading + EventLine(p.eventName) + PlanDetails(p)
  }

  const RolesHeading: string := "\n\n**Recommended Roles:**\n"
  const InsightsHeading: string := "\n\n**AI Insights:**\n"

  /** The intro followed by the three lists under their headings. */
  function Sections(intro: string, phases: string, roles: string, insights: string): string {
    intro + phases + RolesHeading + roles + InsightsHeading + insights
  }

  /** Every part of the sectioned text, and whatever the intro includes, is in it. */
  lemma SectionsInclude(intro: string, phases: string, roles: string, insights: string, x: string)
    ensures Includes(Sections(intro, phases, roles, insights), phases)
    ensures Includes(Sections(intro, phases, roles, insights), roles)
    ensures Includes(Sections(intro, phases, roles, insights), insights)
    ensures Includes(intro, x) ==> Includes(Sections(intro, phases, roles, insights), x)
  {
    var a := intro + phases;
    var b := a + RolesHeading;
    var c := b + roles;
    var d := c + InsightsHeading;
    IncludesSuffix(intro, phases);
    IncludesExtend(a, phases, RolesHeading);
    IncludesExtend(b, phases, roles);
    IncludesExtend(c, phases, InsightsHeading);
    IncludesExtend(d, phases, insights);
    IncludesSuffix(b, roles);
    IncludesExtend(c, roles, InsightsHeading);
    IncludesExtend(d, roles, insights);
    IncludesSuffix(d, insights);
    if Includes(intro, x) {
      IncludesExtend(intro, x, phases);
      IncludesExtend(a, x, RolesHeading);
      IncludesExtend(b, x, roles);
      IncludesExtend(c, x, InsightsHeading);
      IncludesExtend(d, x, insights);
    }
  }

  /** The plan announcement: the intro, then one line per phase, per role and per insight
      under their headings. */
  function PlanMessage(p: EventPlan): string {
    Sections(PlanIntro(p), Join(PhaseLines(p.phases), "\n"), Join(RoleLines(p.recommendedRoles), "\n"),
             Join(InsightLines(p.aiInsights), "\n"))
  }

  /** The announcement lists every phase with its duration, every role and every insight. */
  lemma PlanMessageListsPlan(p: EventPlan)
    ensures forall i :: 0 <= i < |p.phases| ==> Includes(PlanMessage(p), PhaseLine(p.phases[i]))
    ensures forall i :: 0 <= i < |p.recommendedRoles| ==> Includes(PlanMessage(p), RoleLine(p.recommendedRoles[i]))
    ensures forall i :: 0 <= i < |p.aiInsights| ==> Includes(PlanMessage(p), InsightLine(p.aiInsights[i]))
    ensures Includes(PlanMessage(p), EventLine(p.eventName))
  {
    var phases := Join(PhaseLines(p.phases), "\n");
    var roles := Join(RoleLines(p.recommendedRoles), "\n");
    var insights := Join(InsightLines(p.aiInsights), "\n");
    var m := PlanMessage(p);
    IncludesInfix(PlanHeading, EventLine(p.eventName), PlanDetails(p));
    SectionsInclude(PlanIntro(p), phases, roles, insights, EventLine(p.eventName));
    forall i | 0 <= i < |p.phases| ensures Includes(m, PhaseLine(p.phases[i])) {
      JoinIncludesPart(PhaseLines(p.phases), "\n", i);
      IncludesTrans(m, phases, PhaseLine(p.phases[i]));
    }
    forall i | 0 <= i < |p.recommendedRoles| ensures Includes(m, RoleLine(p.recommendedRoles[i])) {
      JoinIncludesPart(RoleLines(p.recommendedRoles), "\n", i);
      IncludesTrans(m, roles, RoleLine(p.recommendedRoles[i]));
    }
    forall i | 0 <= i < |p.aiInsights| ensures Includes(m, InsightLine(p.aiInsights[i])) {
      JoinIncludesPart(InsightLines(p.aiInsights), "\n", i);
      IncludesTrans(m, insights, InsightLine(p.aiInsights[i]));
    }
  }

  /** POST /generate-plan.  A channel id and event details are required (400), the channel
      must exist (404) and have the caller as a member (403); a plan the generator cannot
      build gives 500.  The plan replaces the channel's stored plan and is announced in one
      AI message. */
  function GeneratePlan(st: Store, caller: UserId, req: PlanRequest, msgId: MessageId, now: int): (r: Reply<EventPlan>)
    ensures r.res.Err? ==> r.st == st
    ensures !Truthy(req.channelId) || req.eventDetails.None? ==> r.res == Err(BadRequest)
    ensures r.res.Ok? ==>
      && Truthy(req.channelId) && req.eventDetails.Some?
      && var cid := req.channelId.value;
         && cid in st.channels && IsMember(st.channels[cid], caller)
         && r.st.channels == st.channels[cid := st.channels[cid].(aiPlan := StoredPlan(req.eventDetails.value, [r.res.value], Some(now)))]
         && r.st.messages == st.messages + [AiMessage(msgId, cid, PlanMessage(r.res.value), now)]
         && r.st.users == st.users && r.st.tasks == st.tasks
  {
    if !Truthy(req.channelId) || req.eventDetails.None? then Reply(st, Err(BadRequest))
    else
      var cid := req.channelId.value;
      if cid !in st.channels then Reply(st, Err(NotFound))
      else if !IsMember(st.channels[cid], caller) then Reply(st, Err(Forbidden))
      else
        match GenerateEventPlan(req.eventDetails.value, now)
        case Err(e) => Reply(st, Err(e))
        case Ok(plan) =>
          var c := st.channels[cid].(aiPlan := StoredPlan(req.eventDetails.value, [plan], Some(now)));
          Reply(st.(channels := st.channels[cid := c],
                    messages := st.messages + [AiMessage(msgId, cid, PlanMessage(plan), now)]), Ok(plan))
  }

  /** With both fields given: an unknown channel is 404 and a non-member 403, both with
      nothing stored; a member gets exactly what the generator answers, so the plan or, when
      the generator throws, 500. */
  lemma GeneratePlanOutcomes(st: Store, caller: UserId, req: PlanRequest, msgId: MessageId, now: int)
    requires Truthy(req.channelId) && req.eventDetails.Some?
    ensures var cid := req.channelId.value;
      var r := GeneratePlan(st, caller, req, msgId, now);
      && (cid !in st.channels ==> r == Reply(st, Err(NotFound)))
      && (cid in st.channels && !IsMember(st.channels[cid], caller) ==> r == Reply(st, Err(Forbidden)))
      && (cid in st.channels && IsMember(st.channels[cid], caller) ==>
            r.res == GenerateEventPlan(req.eventDetails.value, now))
  {
  }

  /** A generated plan announces itself with the event name it was given, or the
      capitalised type with " Event". */
  lemma GeneratedPlanNamesEvent(st: Store, caller: UserId, req: PlanRequest, msgId: MessageId, now: int)
    requires GeneratePlan(st, caller, req, msgId, now).res.Ok?
    ensures var d := req.eventDetails.value;
      var content := GeneratePlan(st, caller, req, msgId, now).st.messages[|st.messages|].content;
      Includes(content, EventLine(if Truthy(d.eventName) then d.eventName.value else Capitalize(d.eventType.value) + " Event"))
  {
    PlanMessageListsPlan(GeneratePlan(st, caller, req, msgId, now).res.value);
  }

  // ---------------------------------------------------------------- ask

  datatype AskRequest = AskRequest(channelId: Option<ChannelId>, question: Option<string>)

  datatype Topic = TaskAdvice | RoleAdvice | TimelineAdvice | GeneralAdvice

  /** The keyword classifier, on the lower-cased question; the first match wins. */
  function Classify(question: string): (t: Topic)
    ensures t == TaskAdvice <==> Includes(Lower(question), "task") || Includes(Lower(question), "how to")
    ensures t == GeneralAdvice <==>
      !Includes(Lower(question), "task") && !Includes(Lower(question), "how to")
      && !Includes(Lower(question), "role") && !Includes(Lower(question), "assign")
      && !Includes(Lower(question), "timeline") && !Includes(Lower(question), "schedule")
  {
    var q := Lower(question);
    if Includes(q, "task") || Includes(q, "how to") then TaskAdvice
    else if Includes(q, "role") || Includes(q, "assign") then RoleAdvice
    else if Includes(q, "timeline") || Includes(q, "schedule") then TimelineAdvice
    else GeneralAdvice
  }

  /** The classifier ignores ASCII case. */
  lemma ClassifyIgnoresCase(question: string)
    ensures Classify(Lower(question)) == Classify(question)
  {
    LowerIdempotent(question);
  }

  /** A question naming both a task and a role is answered as a task question. */
  lemma TaskKeywordWins(a: string, b: string, c: string)
    ensures Classify(a + "task" + b + "role" + c) == TaskAdvice
  {
    var rest := b + "role" + c;
    LowerConcat(a + "task", rest);
    LowerConcat(a, "task");
    assert Lower("task") == "task";
    assert a + "task" + b + "role" + c == a + "task" + rest;
    IncludesInfix(Lower(a), "task", Lower(rest));
  }

  const TaskAnswerHead: string := "\U{1F916} **AI Assistant Response:**\n\nBased on your question about "
  const TaskAnswerTail: string :=
    ", here are my suggestions:\n\n\U{2022} Break down the task into smaller, manageable steps\n\U{2022} Assign clear deadlines and responsibilities\n\U{2022} Use the task board to track progress\n\U{2022} Don't hesitate to ask team members for help\n\U{2022} Consider if you need additional resources or tools\n\nWould you like me to create specific tasks for this or provide more detailed guidance?"
  const RoleAnswerHead: string := "\U{1F916} **Role Assignment Suggestions:**\n\n"
  const TeamSizeHead: string := "\n\nBased on your team size of "
  const TeamSizeTail: string := " members, I recommend prioritizing the \"essential\" roles first."
  const TimelineAnswerHead: string := "\U{1F916} **Timeline Recommendations:**\n\nFor your "
  const TimelineAnswerTail: string :=
    " event, here's a suggested timeline:\n\n\U{2022} **Planning Phase:** Start 6-8 weeks before\n\U{2022} **Preparation Phase:** 2-3 weeks before\n\U{2022} **Final Preparations:** 1 week before\n\U{2022} **Event Day:** Execute according to plan\n\U{2022} **Follow-up:** 1-2 weeks after\n\nWould you like me to create specific tasks with deadlines for each phase?"
  const GeneralAnswerHead: string := "\U{1F916} **AI Assistant:**\n\nI understand you're asking about "
  const GeneralAnswerTail: string :=
    ". Here are some general suggestions:\n\n\U{2022} Check your current tasks and progress\n\U{2022} Review the event plan we generated\n\U{2022} Consider discussing with your team members\n\U{2022} Break complex problems into smaller parts\n\U{2022} Use the resources and tools available in your dashboard\n\nCould you provide more specific details so I can give you better guidance?"

  function Quoted(q: string): string {
    "\"" + q + "\""
  }

  function RoleBlock(r: RoleSuggestion): string {
    "**" + r.role + "** (" + r.priority + ")\n\U{2022} Skills needed: " + Join(r.skills, ", ")
  }

  function RoleBlocks(rs: seq<RoleSuggestion>): (bs: seq<string>)
    ensures |bs| == |rs| && forall i :: 0 <= i < |rs| ==> bs[i] == RoleBlock(rs[i])
  {
    seq(|rs|, i requires 0 <= i < |rs| => RoleBlock(rs[i]))
  }

  function RoleAnswer(rs: seq<RoleSuggestion>, teamSize: nat): string {
    RoleAnswerHead + Join(RoleBlocks(rs), "\n\n") + TeamSizeHead + NatToString(teamSize) + TeamSizeTail
  }

  /** The answer to a question on a topic, for a channel.  The question is quoted as asked,
      not lower-cased. */
  function Answer(topic: Topic, question: string, c: Channel): string {
    match topic
    case TaskAdvice => TaskAnswerHead + Quoted(question) + TaskAnswerTail
    case RoleAdvice => RoleAnswer(GenerateRoleSuggestions(EventTypeName(c.eventType), |c.members|).value, |c.members|)
    case TimelineAdvice => TimelineAnswerHead + EventTypeName(c.eventType) + TimelineAnswerTail
    case GeneralAdvice => GeneralAnswerHead + Quoted(question) + GeneralAnswerTail
  }

  /** POST /ask.  A channel id and a question are required (400), then an existing channel
      (404) with the caller as a member (403); the answer is stored as one AI message. */
  function Ask(st: Store, caller: UserId, req: AskRequest, msgId: MessageId, now: int): (r: Reply<string>)
    ensures r.res.Err? ==> r.st == st
    ensures !Truthy(req.channelId) || !Truthy(req.question) ==> r.res == Err(BadRequest)
    ensures r.res.Ok? <==>
      Truthy(req.channelId) && Truthy(req.question) && req.channelId.value in st.channels
      && IsMember(st.channels[req.channelId.value], caller)
    ensures r.res.Ok? ==>
      && r.st == st.(messages := st.messages + [AiMessage(msgId, req.channelId.value, r.res.value, now)])
      && r.res.value == Answer(Classify(req.question.value), req.question.value, st.channels[req.channelId.value])
  {
    if !Truthy(req.channelId) || !Truthy(req.question) then Reply(st, Err(BadRequest))
    else
      var cid := req.channelId.value;
      if cid !in st.channels then Reply(st, Err(NotFound))
      else if !IsMember(st.channels[cid], caller) then Reply(st, Err(Forbidden))
      else
        var answer := Answer(Classify(req.question.value), req.question.value, st.channels[cid]);
        Reply(st.(messages := st.messages + [AiMessage(msgId, cid, answer, now)]), Ok(answer))
  }

  /** A role answer lists the first suggested role and quotes the team size. */
  lemma RoleAnswerQuotes(rs: seq<RoleSuggestion>, teamSize: nat)
    requires |rs| > 0
    ensures Includes(RoleAnswer(rs, teamSize), NatToString(teamSize))
    ensures Includes(RoleAnswer(rs, teamSize), RoleBlock(rs[0]))
  {
    var blocks := Join(RoleBlocks(rs), "\n\n");
    var n := NatToString(teamSize);
    var a := RoleAnswerHead + blocks + TeamSizeHead;
    IncludesInfix(a, n, TeamSizeTail);
    IncludesInfix(RoleAnswerHead, blocks, TeamSizeHead);
    IncludesExtend(a, blocks, n);
    IncludesExtend(a + n, blocks, TeamSizeTail);
    JoinIncludesPart(RoleBlocks(rs), "\n\n", 0);
    IncludesTrans(RoleAnswer(rs, teamSize), blocks, RoleBlocks(rs)[0]);
  }

  /** The role answer suggests the roles for the channel's event type and quotes its member
      count as the team size. */
  lemma RoleAnswerUsesChannel(q: string, c: Channel)
    ensures Includes(Answer(RoleAdvice, q, c), NatToString(|c.members|))
    ensures EventTypeName(c.eventType) == "hackathon" ==> Includes(Answer(RoleAdvice, q, c), RoleBlock(HackathonRoles[0]))
    ensures EventTypeName(c.eventType) != "hackathon" ==> Includes(Answer(RoleAdvice, q, c), RoleBlock(ConferenceRoles[0]))
  {
    RoleAnswerQuotes(GenerateRoleSuggestions(EventTypeName(c.eventType), |c.members|).value, |c.members|);
  }

  /** Task and general answers quote the question as asked. */
  lemma AnswerQuotesQuestion(topic: Topic, q: string, c: Channel)
    requires topic == TaskAdvice || topic == GeneralAdvice
    ensures Includes(Answer(topic, q, c), Quoted(q))
  {
    if topic == TaskAdvice {
      IncludesInfix(TaskAnswerHead, Quoted(q), TaskAnswerTail);
    } else {
      IncludesInfix(GeneralAnswerHead, Quoted(q), GeneralAnswerTail);
    }
  }

  // ---------------------------------------------------------------- task-suggestions

  /** POST /task-suggestions: a task title is required (400); no channel or store is read. */
  function TaskSuggestionsRoute(taskTitle: Option<string>): (r: Result<seq<TaskSuggestion>>)
    ensures r.Err? <==> !Truthy(taskTitle)
    ensures r.Err? ==> r.error == BadRequest
    ensures r.Ok? ==> |r.value| == 3 && Includes(r.value[0].suggestion, taskTitle.value)
  {
    if !Truthy(taskTitle) then Err(BadRequest)
    else
      FirstSuggestionQuotesTitle(taskTitle.value);
      Ok(GenerateTaskSuggestions(taskTitle.value))
  }

  // ---------------------------------------------------------------- store-plan

  /** The fields of the body the Python backend posts that the handler reads. */
  datatype StorePlanBody = StorePlanBody(channelId: Option<ChannelId>, userRequest: Option<string>, eventType: Option<string>)

  const StoredPlanHead: string := "\U{1F916} **AI Action Plan Generated!**\n\n**Request:** "
  const StoredPlanMiddle: string := "\n**Event Type:** "
  const StoredPlanTail: string :=
    "\n\nI've created a comprehensive action plan with detailed cards and timeline. Check the AI assistant for the full plan!"

  function StoredPlanMessage(b: StorePlanBody): string {
    StoredPlanHead + Interpolate(b.userRequest) + StoredPlanMiddle + Interpolate(b.eventType) + StoredPlanTail
  }

  /** POST /store-plan: no authentication; with a channel id one AI message is stored for
      it, without checking that the channel exists; without one nothing is stored.  A
      channel id that is not ObjectId text makes the message's save fail (500). */
  function StorePlan(st: Store, body: StorePlanBody, msgId: MessageId, now: int): (r: Reply<bool>)
    ensures r.res.Ok? <==> !Truthy(body.channelId) || ObjectIdText(body.channelId.value)
    ensures r.res.Ok? ==> r.res.value
    ensures r.res.Err? ==> r == Reply(st, Err(ServerError))
    ensures !Truthy(body.channelId) ==> r.st == st
    ensures Truthy(body.channelId) && ObjectIdText(body.channelId.value) ==>
      r.st == st.(messages := st.messages + [AiMessage(msgId, body.channelId.value, StoredPlanMessage(body), now)])
  {
    if !Truthy(body.channelId) then Reply(st, Ok(true))
    else if !ObjectIdText(body.channelId.value) then Reply(st, Err(ServerError))
    else Reply(st.(messages := st.messages + [AiMessage(msgId, body.channelId.value, StoredPlanMessage(body), now)]), Ok(true))
  }

  /** A plan that is stored is announced by exactly one AI-authored message in the
      requested channel. */
  lemma GeneratePlanPostsAiMessage(st: Store, caller: UserId, req: PlanRequest, msgId: MessageId, now: int)
    ensures var st' := GeneratePlan(st, caller, req, msgId, now).st;
      st' != st ==> (|st'.messages| == |st.messages| + 1 && st'.messages[|st.messages|].sender.None?
        && st'.messages[|st.messages|].msgType == AiResponse && st'.messages[|st.messages|].isAI
        && st'.messages[|st.messages|].channel == req.channelId.value)
  {
  }

  /** An answered question is stored as exactly one AI-authored message in the requested
      channel. */
  lemma AskPostsAiMessage(st: Store, caller: UserId, req: AskRequest, msgId: MessageId, now: int)
    ensures var st' := Ask(st, caller, req, msgId, now).st;
      st' != st ==> (|st'.messages| == |st.messages| + 1 && st'.messages[|st.messages|].sender.None?
        && st'.messages[|st.messages|].msgType == AiResponse && st'.messages[|st.messages|].isAI
        && st'.messages[|st.messages|].channel == req.channelId.value)
  {
  }

  /** A plan posted from the Python backend is stored as exactly one AI-authored message in
      the channel it names. */
  lemma StorePlanPostsAiMessage(st: Store, body: StorePlanBody, msgId: MessageId, now: int)
    ensures var st' := StorePlan(st, body, msgId, now).st;
      st' != st ==> (|st'.messages| == |st.messages| + 1 && st'.messages[|st.messages|].sender.None?
        && st'.messages[|st.messages|].msgType == AiResponse && st'.messages[|st.messages|].isAI
        && st'.messages[|st.messages|].channel == body.channelId.value)
  {
  }
}

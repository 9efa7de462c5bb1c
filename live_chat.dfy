/** The live chat with five simulated persuasion agents: a mission starts
    with a system message, then each agent in a fixed order "types" and
    adds one reply built from templates about the business and the
    audience; a reply can be regenerated later. Delays are left out; the
    clock readings and the `Math.random()` draws are parameters. */
module LiveChat {
  import opened Values
  import Text
  import MockBackend
  import AudienceSelector

  datatype ChatBusiness = ChatBusiness(name: string, industryCategory: Option<string>)

  /** The audience chosen on the dashboard. Its context in the replies is
      the text its card shows, `AudienceSelector.CardDescription`. */
  type ChatAudience = MockBackend.TargetAudience

  /** The five agents; `Name` gives the key each one has in the source. */
  datatype Agent = Logic | Emotion | Creative | Authority | Social
  {
    function Name(): string
    {
      match this
      case Logic => "logic"
      case Emotion => "emotion"
      case Creative => "creative"
      case Authority => "authority"
      case Social => "social"
    }
  }

  /** The key a reply is asked for: one of the five agents, or any other
      string. */
  datatype AgentKey = Known(agent: Agent) | Other(key: string)

  /** Which template a reply uses: its text is `ReplyText` of it, filled in
      with the business, the audience and the audience context. */
  datatype Reply = Reply(agent: AgentKey, index: nat)

  datatype Message =
    | SystemMessage(id: int, content: string, timestamp: int, business: string, audience: string)
    | AiMessage(id: int, agentType: Agent, reply: Reply, timestamp: int, provider: string)
    | ErrorMessage(id: int, content: string, timestamp: int)

  const AgentOrder: seq<Agent> := [Logic, Emotion, Creative, Authority, Social]

  const GenericResponse: string := "Generic response for this agent type."
  const FailureText: string := "Failed to start AI session. Please try again."
  /** The TypeError raised by calling `toLowerCase` on a missing value. */
  const MissingContextError: string := "Cannot read properties of undefined (reading 'toLowerCase')"

  /** The model behind each agent. */
  function Provider(agent: Agent): string
  {
    match agent
    case Logic | Emotion => "OpenAI GPT-4"
    case Creative | Authority => "Google Gemini"
    case Social => "Claude (Anthropic)"
  }

  // ----- replies -----

  /** `${business.name} (${business.industry_category})`. */
  function BusinessContext(b: ChatBusiness): string
  {
    b.name + " (" + Show(b.industryCategory) + ")"
  }

  /** The reply templates. Each is a function of the business, the
      audience and the audience context `ctx`; `bc` is the business
      context and `low` the lower-cased audience context. */
  function LogicReply0(b: ChatBusiness, a: ChatAudience, ctx: string): string
  {
    var bc := BusinessContext(b);
    var low := Text.ToLower(ctx);
    "Based on data analysis for " + bc + ", targeting " + a.name + " requires a strategic approach. Key metrics show that " + low + " respond best to clear value propositions with measurable benefits. I recommend focusing on ROI-driven messaging that demonstrates concrete outcomes."
  }

  function LogicReply1(b: ChatBusiness, a: ChatAudience, ctx: string): string
  {
    "From a logical standpoint, " + b.name + " should leverage industry benchmarks to position against competitors. The target demographic of " + a.name + " typically evaluates decisions based on cost-benefit analysis and proven results."
  }

  function LogicReply2(b: ChatBusiness, a: ChatAudience, ctx: string): string
  {
    var bc := BusinessContext(b);
    var low := Text.ToLower(ctx);
    "Statistical evidence suggests that " + low + " have specific pain points that " + bc + " can address. The optimal approach involves presenting data-backed solutions with clear implementation timelines."
  }

  function EmotionReply0(b: ChatBusiness, a: ChatAudience, ctx: string): string
  {
    "The emotional connection with " + a.name + " is crucial for " + b.name + ". " + ctx + " often feel overwhelmed by choices - we need to create messaging that provides comfort and confidence. Focus on peace of mind, security, and the feeling of making the right decision."
  }

  function EmotionReply1(b: ChatBusiness, a: ChatAudience, ctx: string): string
  {
    var bc := BusinessContext(b);
    "For " + bc + ", the emotional trigger points with " + a.name + " center around trust and reliability. These customers want to feel valued and understood. Our messaging should emphasize personal attention and genuine care for their success."
  }

  function EmotionReply2(b: ChatBusiness, a: ChatAudience, ctx: string): string
  {
    var low := Text.ToLower(ctx);
    "The emotional journey for " + low + " involves moving from uncertainty to confidence. " + b.name + " should position itself as the trusted guide who understands their challenges and provides reassuring solutions."
  }

  function CreativeReply0(b: ChatBusiness, a: ChatAudience, ctx: string): string
  {
    var cat := Show(b.industryCategory);
    "Here's an innovative approach for " + b.name + ": Create a unique customer experience that sets you apart in the " + cat + " space. For " + a.name + ", consider developing interactive tools or personalized consultations that make the decision process engaging and memorable."
  }

  function CreativeReply1(b: ChatBusiness, a: ChatAudience, ctx: string): string
  {
    var bc := BusinessContext(b);
    var low := Text.ToLower(ctx);
    "Creative positioning for " + bc + " could involve storytelling that resonates with " + low + ". Think about creating case studies that feel like success stories rather than sales pitches - showing transformation and positive outcomes."
  }

  function CreativeReply2(b: ChatBusiness, a: ChatAudience, ctx: string): string
  {
    "An out-of-the-box idea: " + b.name + " could develop a signature methodology or framework that becomes synonymous with your brand. This gives " + a.name + " something tangible to remember and share with others."
  }

  function AuthorityReply0(b: ChatBusiness, a: ChatAudience, ctx: string): string
  {
    var cat := Show(b.industryCategory);
    b.name + " needs to establish thought leadership in the " + cat + " sector. For " + a.name + ", credibility comes from demonstrated expertise and industry recognition. Showcase certifications, awards, and expert endorsements prominently."
  }

  function AuthorityReply1(b: ChatBusiness, a: ChatAudience, ctx: string): string
  {
    var bc := BusinessContext(b);
    "Authority positioning for " + bc + " should emphasize years of experience and successful track record. " + ctx + " trust providers who have proven themselves with similar customers and can provide references and testimonials."
  }

  function AuthorityReply2(b: ChatBusiness, a: ChatAudience, ctx: string): string
  {
    "To build authority with " + a.name + ", " + b.name + " should share industry insights and educational content. Position yourself as the go-to expert who not only provides services but also educates and guides customers toward informed decisions."
  }

  function SocialReply0(b: ChatBusiness, a: ChatAudience, ctx: string): string
  {
    "Social proof is powerful for " + a.name + " when considering " + b.name + ". " + ctx + " are heavily influenced by peer recommendations and community validation. Leverage customer testimonials, case studies, and user-generated content to build trust."
  }

  function SocialReply1(b: ChatBusiness, a: ChatAudience, ctx: string): string
  {
    var bc := BusinessContext(b);
    "For " + bc + ", community building around your brand creates strong social validation. " + a.name + " want to see that others like them have chosen and succeeded with your services. Create opportunities for customers to share their experiences."
  }

  function SocialReply2(b: ChatBusiness, a: ChatAudience, ctx: string): string
  {
    var low := Text.ToLower(ctx);
    "The social aspect for " + low + " involves belonging to a community of smart decision-makers. " + b.name + " should foster a sense of exclusivity and insider knowledge that makes customers feel part of something special."
  }

  /** How many templates an agent has: three for each of the five, one
      generic reply for any other key. */
  function TemplateCount(agentType: AgentKey): nat
  {
    if agentType.Known? then 3 else 1
  }

  /** The text of a reply. */
  function ReplyText(r: Reply, b: ChatBusiness, a: ChatAudience, ctx: string): string
  {
    match r
    case Reply(Known(Logic), 0) => LogicReply0(b, a, ctx)
    case Reply(Known(Logic), 1) => LogicReply1(b, a, ctx)
    case Reply(Known(Logic), _) => LogicReply2(b, a, ctx)
    case Reply(Known(Emotion), 0) => EmotionReply0(b, a, ctx)
    case Reply(Known(Emotion), 1) => EmotionReply1(b, a, ctx)
    case Reply(Known(Emotion), _) => EmotionReply2(b, a, ctx)
    case Reply(Known(Creative), 0) => CreativeReply0(b, a, ctx)
    case Reply(Known(Creative), 1) => CreativeReply1(b, a, ctx)
    case Reply(Known(Creative), _) => CreativeReply2(b, a, ctx)
    case Reply(Known(Authority), 0) => AuthorityReply0(b, a, ctx)
    case Reply(Known(Authority), 1) => AuthorityReply1(b, a, ctx)
    case Reply(Known(Authority), _) => AuthorityReply2(b, a, ctx)
    case Reply(Known(Social), 0) => SocialReply0(b, a, ctx)
    case Reply(Known(Social), 1) => SocialReply1(b, a, ctx)
    case Reply(Known(Social), _) => SocialReply2(b, a, ctx)
    case Reply(Other(_), _) => GenericResponse
  }

  /** `Math.floor(rand * n)` for a draw `0 <= rand < 1`: a valid index. */
  function PickIndex(rand: real, n: nat): (k: nat)
    requires 0.0 <= rand < 1.0 && n > 0
    ensures k < n
  {
    var x := rand * n as real;
    assert 0.0 <= x < n as real;
    x.Floor
  }

  /** `generateAIResponse`. The object of templates is built in full before
      one is chosen, and five of the templates lower-case the audience
      context, so the call throws exactly when that context is missing,
      whichever agent asked. Otherwise the reply is one of the agent's
      templates, or the generic reply for an unknown agent. */
  function GenerateAIResponse(agentType: AgentKey, a: ChatAudience, rand: real): (r: Call<Reply>)
    requires 0.0 <= rand < 1.0
    ensures r.Threw? <==> AudienceSelector.CardDescription(a).None?
    ensures r.Returned? ==> r.value.agent == agentType && r.value.index < TemplateCount(agentType)
  {
    match AudienceSelector.CardDescription(a)
    case None => Threw(MissingContextError)
    case Some(_) => Returned(Reply(agentType, PickIndex(rand, TemplateCount(agentType))))
  }

  /** An agent outside the five always gets the generic reply. */
  lemma OtherAgentIsGeneric(key: string, a: ChatAudience, b: ChatBusiness, rand: real)
    requires 0.0 <= rand < 1.0 && AudienceSelector.CardDescription(a).Some?
    ensures GenerateAIResponse(Other(key), a, rand).Returned?
    ensures ReplyText(GenerateAIResponse(Other(key), a, rand).value, b, a, AudienceSelector.CardDescription(a).value) == GenericResponse
  {
  }

  /** `🚀 **Mission Started**: ${objective}`. */
  function MissionText(objective: string): (s: string)
    ensures Text.Contains(s, objective)
  {
    var prefix := "🚀 **Mission Started**: ";
    var s := prefix + objective;
    assert s[|prefix|..] == objective;
    MissionContains(prefix, objective);
    s
  }

  lemma {:induction false} MissionContains(prefix: string, objective: string)
    ensures Text.Contains(prefix + objective, objective)
    decreases |prefix|
  {
    if prefix != [] {
      assert (prefix + objective)[1..] == prefix[1..] + objective;
      MissionContains(prefix[1..], objective);
    }
  }

  /** White space and line terminators as `String.prototype.trim` removes
      them. */
  predicate IsJsSpace(c: char)
  {
    c == ' ' || c == '\t' || c == '\n' || c == '\r' || c == '\U{000B}' || c == '\U{000C}'
    || c == '\U{00A0}' || c == '\U{1680}' || ('\U{2000}' <= c <= '\U{200A}')
    || c == '\U{2028}' || c == '\U{2029}' || c == '\U{202F}' || c == '\U{205F}'
    || c == '\U{3000}' || c == '\U{FEFF}'
  }

  /** `!s.trim()`. */
  predicate IsBlank(s: string)
  {
    forall i :: 0 <= i < |s| ==> IsJsSpace(s[i])
  }

  // ----- the session transcript -----

  /** The reply of the agent at position `i` of the order: the one
      `generateAIResponse` builds for it whenever the audience has a
      context. */
  function AgentMessage(i: nat, b: ChatBusiness, a: ChatAudience, times: seq<int>, rands: seq<real>): (m: Message)
    requires i < |AgentOrder| && |times| == |rands| == |AgentOrder|
    requires forall j :: 0 <= j < |rands| ==> 0.0 <= rands[j] < 1.0
    ensures m.AiMessage? && m.agentType == AgentOrder[i] && m.provider == Provider(AgentOrder[i])
    ensures m.reply.agent == Known(AgentOrder[i]) && m.reply.index < 3
    ensures AudienceSelector.CardDescription(a).Some? ==> GenerateAIResponse(Known(AgentOrder[i]), a, rands[i]) == Returned(m.reply)
  {
    var t := AgentOrder[i];
    AiMessage(times[i] + i, t, Reply(Known(t), PickIndex(rands[i], TemplateCount(Known(t)))), times[i], Provider(t))
  }

  /** The replies of the first `n` agents, in order. */
  function AgentMessages(n: nat, b: ChatBusiness, a: ChatAudience, times: seq<int>, rands: seq<real>): (ms: seq<Message>)
    requires n <= |AgentOrder| && |times| == |rands| == |AgentOrder|
    requires forall j :: 0 <= j < |rands| ==> 0.0 <= rands[j] < 1.0
    ensures |ms| == n
    ensures forall i :: 0 <= i < n ==> ms[i] == AgentMessage(i, b, a, times, rands)
  {
    if n == 0 then [] else AgentMessages(n - 1, b, a, times, rands) + [AgentMessage(n - 1, b, a, times, rands)]
  }

  /** The agents among the first `n` of the order. */
  function AgentsUpTo(n: nat): (r: set<Agent>)
    requires n <= |AgentOrder|
    ensures r == set j | 0 <= j < n :: AgentOrder[j]
  {
    if n == 0 then {} else AgentsUpTo(n - 1) + {AgentOrder[n - 1]}
  }

  /** One more agent adds its reply and its name. */
  lemma AgentStep(i: nat, b: ChatBusiness, a: ChatAudience, times: seq<int>, rands: seq<real>)
    requires i < |AgentOrder| && |times| == |rands| == |AgentOrder|
    requires forall j :: 0 <= j < |rands| ==> 0.0 <= rands[j] < 1.0
    ensures AgentMessages(i + 1, b, a, times, rands) == AgentMessages(i, b, a, times, rands) + [AgentMessage(i, b, a, times, rands)]
    ensures AgentsUpTo(i + 1) == AgentsUpTo(i) + {AgentOrder[i]}
  {
  }

  /** A full run shows the mission first, then one reply from each agent
      in the fixed order, each one of that agent's templates. */
  lemma CompletedTranscript(objective: string, b: ChatBusiness, a: ChatAudience, start: int, times: seq<int>, rands: seq<real>)
    requires |times| == |rands| == |AgentOrder|
    requires forall j :: 0 <= j < |rands| ==> 0.0 <= rands[j] < 1.0
    requires AudienceSelector.CardDescription(a).Some?
    ensures var ms := [SystemMessage(start, MissionText(objective), start, b.name, a.name)]
                      + AgentMessages(|AgentOrder|, b, a, times, rands);
      |ms| == 6 && ms[0].SystemMessage? && Text.Contains(ms[0].content, objective)
      && (forall i :: 1 <= i < 6 ==> ms[i].AiMessage? && ms[i].agentType == AgentOrder[i - 1])
      && (forall i :: 1 <= i < 6 ==> ms[i].reply.agent == Known(AgentOrder[i - 1]) && ms[i].reply.index < 3)
  {
    var ms := [SystemMessage(start, MissionText(objective), start, b.name, a.name)]
              + AgentMessages(|AgentOrder|, b, a, times, rands);
    forall i | 1 <= i < 6
      ensures ms[i] == AgentMessage(i - 1, b, a, times, rands)
    {
    }
  }

  // ----- regenerating one agent's replies -----

  predicate IsReplyOf(m: Message, agentType: Agent)
  {
    m.AiMessage? && m.agentType == agentType
  }

  /** The `messages.map` of `regenerateResponse`: the agent's replies get
      the new text and time, every other message is left as it was. */
  function Regenerate(ms: seq<Message>, agentType: Agent, response: Reply, now: int): (r: seq<Message>)
    ensures |r| == |ms|
    ensures forall i :: 0 <= i < |ms| && !IsReplyOf(ms[i], agentType) ==> r[i] == ms[i]
    ensures forall i :: 0 <= i < |ms| && IsReplyOf(ms[i], agentType) ==>
      r[i].AiMessage? && r[i].reply == response && r[i].timestamp == now
      && r[i].id == ms[i].id && r[i].agentType == agentType && r[i].provider == ms[i].provider
  {
    seq(|ms|, i requires 0 <= i < |ms| =>
      if IsReplyOf(ms[i], agentType) then ms[i].(reply := response, timestamp := now) else ms[i])
  }

  /** Regenerating again with the same text and time changes nothing. */
  lemma RegenerateIdempotent(ms: seq<Message>, agentType: Agent, response: Reply, now: int)
    ensures Regenerate(Regenerate(ms, agentType, response, now), agentType, response, now)
         == Regenerate(ms, agentType, response, now)
  {
  }

  // ----- the component -----

  class ChatSession {
    const business: ChatBusiness
    const audience: ChatAudience
    var messages: seq<Message>
    var isLoading: bool
    var sessionStarted: bool
    var typingAgents: set<Agent>
    var creditsUsed: nat
    var messagesCount: nat

    constructor(business: ChatBusiness, audience: ChatAudience)
      ensures this.business == business && this.audience == audience
      ensures messages == [] && !isLoading && !sessionStarted && typingAgents == {}
      ensures creditsUsed == 0 && messagesCount == 0
    {
      this.business := business;
      this.audience := audience;
      messages := [];
      isLoading := false;
      sessionStarted := false;
      typingAgents := {};
      creditsUsed := 0;
      messagesCount := 0;
    }

    /** `startSession`. A blank objective does nothing. Otherwise the
        transcript restarts with the mission message and each agent in turn
        types and replies, counting one credit and one message per reply;
        when a reply cannot be built, one error message is added instead.
        Loading ends in every case. */
    method StartSession(objective: string, start: int, times: seq<int>, rands: seq<real>)
      requires |times| == |rands| == |AgentOrder|
      requires forall j :: 0 <= j < |rands| ==> 0.0 <= rands[j] < 1.0
      modifies this
      ensures IsBlank(objective) ==>
        messages == old(messages) && isLoading == old(isLoading) && sessionStarted == old(sessionStarted)
        && typingAgents == old(typingAgents) && creditsUsed == old(creditsUsed) && messagesCount == old(messagesCount)
      ensures !IsBlank(objective) ==> !isLoading && sessionStarted
      ensures !IsBlank(objective) && AudienceSelector.CardDescription(audience).Some? ==>
        messages == [SystemMessage(start, MissionText(objective), start, business.name, audience.name)]
                    + AgentMessages(5, business, audience, times, rands)
        && creditsUsed == old(creditsUsed) + 5 && messagesCount == old(messagesCount) + 5
        && typingAgents == old(typingAgents) - AgentsUpTo(5)
      ensures !IsBlank(objective) && AudienceSelector.CardDescription(audience).None? ==>
        messages == [SystemMessage(start, MissionText(objective), start, business.name, audience.name),
                     ErrorMessage(times[0], FailureText, times[0])]
        && creditsUsed == old(creditsUsed) && messagesCount == old(messagesCount)
        && typingAgents == old(typingAgents) - {AgentOrder[0]}
    {
      if IsBlank(objective) {
        return;
      }
      isLoading := true;
      sessionStarted := true;
      messages := [SystemMessage(start, MissionText(objective), start, business.name, audience.name)];
      var failed := RunAgents(times, rands);
      if failed {
        messages := messages + [ErrorMessage(times[0], FailureText, times[0])];
      }
      isLoading := false;
    }

    /** The `for` loop of `startSession` over the agent order. It ends
        early, reporting the failure, when a reply cannot be built. */
    method RunAgents(times: seq<int>, rands: seq<real>) returns (failed: bool)
      requires |times| == |rands| == |AgentOrder|
      requires forall j :: 0 <= j < |rands| ==> 0.0 <= rands[j] < 1.0
      modifies this
      ensures failed <==> AudienceSelector.CardDescription(audience).None?
      ensures isLoading == old(isLoading) && sessionStarted == old(sessionStarted)
      ensures !failed ==>
        messages == old(messages) + AgentMessages(5, business, audience, times, rands)
        && creditsUsed == old(creditsUsed) + 5 && messagesCount == old(messagesCount) + 5
        && typingAgents == old(typingAgents) - AgentsUpTo(5)
      ensures failed ==>
        messages == old(messages) && creditsUsed == old(creditsUsed) && messagesCount == old(messagesCount)
        && typingAgents == old(typingAgents) - {AgentOrder[0]}
    {
      failed := false;
      ghost var typingBefore := typingAgents;
      var i: nat := 0;
      while i < |AgentOrder|
        invariant 0 <= i <= |AgentOrder|
        invariant failed ==> i == 0 && AudienceSelector.CardDescription(audience).None?
        invariant i > 0 ==> AudienceSelector.CardDescription(audience).Some?
        invariant isLoading == old(isLoading) && sessionStarted == old(sessionStarted)
        invariant messages == old(messages) + AgentMessages(i, business, audience, times, rands)
        invariant !failed ==> typingAgents == old(typingAgents) - AgentsUpTo(i)
        invariant failed ==> typingAgents == typingBefore - {Logic}
        invariant creditsUsed == old(creditsUsed) + i && messagesCount == old(messagesCount) + i
        decreases |AgentOrder| - i
      {
        AgentStep(i, business, audience, times, rands);
        var ok := RunAgent(i, times, rands);
        if !ok {
          failed := true;
          break;
        }
        i := i + 1;
      }
    }

    /** One pass of that loop: the agent types and stops, then its reply is
        appended and counted, or the failure is reported. */
    method RunAgent(i: nat, times: seq<int>, rands: seq<real>) returns (ok: bool)
      requires i < |AgentOrder| && |times| == |rands| == |AgentOrder|
      requires forall j :: 0 <= j < |rands| ==> 0.0 <= rands[j] < 1.0
      modifies this
      ensures ok <==> AudienceSelector.CardDescription(audience).Some?
      ensures isLoading == old(isLoading) && sessionStarted == old(sessionStarted)
      ensures typingAgents == old(typingAgents) - {AgentOrder[i]}
      ensures ok ==>
        messages == old(messages) + [AgentMessage(i, business, audience, times, rands)]
        && creditsUsed == old(creditsUsed) + 1 && messagesCount == old(messagesCount) + 1
      ensures !ok ==>
        messages == old(messages) && creditsUsed == old(creditsUsed) && messagesCount == old(messagesCount)
    {
      var agentType := AgentOrder[i];
      typingAgents := typingAgents + {agentType};
      typingAgents := typingAgents - {agentType};
      var response := GenerateAIResponse(Known(agentType), audience, rands[i]);
      if response.Threw? {
        return false;
      }
      messages := messages + [AiMessage(times[i] + i, agentType, response.value, times[i], Provider(agentType))];
      creditsUsed := creditsUsed + 1;
      messagesCount := messagesCount + 1;
      ok := true;
    }

    /** `regenerateResponse`: the agent stops typing; when a reply can be
        built, its earlier replies take the new text and time. A failure
        escapes without changing the messages. */
    method RegenerateResponse(agentType: Agent, now: int, rand: real) returns (r: Call<Reply>)
      requires 0.0 <= rand < 1.0
      modifies this
      ensures r == GenerateAIResponse(Known(agentType), audience, rand)
      ensures typingAgents == old(typingAgents) - {agentType}
      ensures r.Threw? ==> messages == old(messages)
      ensures r.Returned? ==> messages == Regenerate(old(messages), agentType, r.value, now)
      ensures creditsUsed == old(creditsUsed) && messagesCount == old(messagesCount)
      ensures isLoading == old(isLoading) && sessionStarted == old(sessionStarted)
    {
      typingAgents := typingAgents + {agentType};
      typingAgents := typingAgents - {agentType};
      r := GenerateAIResponse(Known(agentType), audience, rand);
      if r.Returned? {
        messages := Regenerate(messages, agentType, r.value, now);
      }
    }
  }
}

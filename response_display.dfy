/** The read-only views of a persuasion session: the five agent cards built
    from a session's `ai_responses` object, the results modal and the
    session card in the list. `ai_responses` is a list of entries in the
    object's key order, each value a string that may be missing. */
module ResponseDisplay {
  import opened Values
  import Seqs

  /** One `[key, value]` pair of `Object.entries(ai_responses)`. */
  datatype Entry = Entry(key: string, response: Option<string>)

  /** The `{ name }` objects a session refers to. */
  datatype NamedRef = NamedRef(name: Option<string>)

  datatype Session = Session(
    sessionId: string,
    missionObjective: string,
    status: string,
    businessType: Option<NamedRef>,
    targetAudience: Option<NamedRef>,
    creditsConsumed: int,
    aiResponses: Option<seq<Entry>>)

  /** The card styling of a configured agent. */
  datatype AgentConfig = AgentConfig(title: string, color: string, description: string, bgColor: string, borderColor: string)

  const ConfiguredAgents: seq<string> := ["logic_agent", "emotion_agent", "creative_agent", "authority_agent", "social_proof_agent"]

  /** `agentConfig[agentType]`: the five configured keys and nothing else. */
  function ConfigFor(key: string): (r: Option<AgentConfig>)
    ensures r.Some? <==> key in ConfiguredAgents
  {
    if key == "logic_agent" then
      Some(AgentConfig("Logic Agent", "bg-blue-500", "Rational, fact-based persuasion", "bg-blue-50", "border-blue-200"))
    else if key == "emotion_agent" then
      Some(AgentConfig("Emotion Agent", "bg-red-500", "Emotional appeal and connection", "bg-red-50", "border-red-200"))
    else if key == "creative_agent" then
      Some(AgentConfig("Creative Agent", "bg-yellow-500", "Creative storytelling and imagery", "bg-yellow-50", "border-yellow-200"))
    else if key == "authority_agent" then
      Some(AgentConfig("Authority Agent", "bg-purple-500", "Expertise and credibility", "bg-purple-50", "border-purple-200"))
    else if key == "social_proof_agent" then
      Some(AgentConfig("Social Proof Agent", "bg-green-500", "Testimonials and peer validation", "bg-green-50", "border-green-200"))
    else None
  }

  /** An entry gets a card when its key is configured and its value is
      truthy. */
  predicate Shown(e: Entry)
  {
    e.key in ConfiguredAgents && Truthy(e.response)
  }

  /** The entries that become cards, in entry order. */
  function Cards(entries: seq<Entry>): (r: seq<Entry>)
    ensures forall e :: e in r <==> e in entries && Shown(e)
    ensures forall i :: 0 <= i < |r| ==> ConfigFor(r[i].key).Some?
    ensures Seqs.IsSubsequence(r, entries)
  {
    Seqs.FilterIsSubsequence(entries, Shown);
    Seqs.Filter(entries, Shown)
  }

  /** What `AIResponseDisplay` renders: the placeholder alert, or the cards
      followed by the usage tips. */
  datatype Display = Placeholder | CardGrid(cards: seq<Entry>)

  function Render(responses: Option<seq<Entry>>): (d: Display)
    ensures d == Placeholder <==> responses.None? || responses.value == []
    ensures d.CardGrid? ==> d.cards == Cards(responses.value)
  {
    match responses
    case None => Placeholder
    case Some(entries) => if entries == [] then Placeholder else CardGrid(Cards(entries))
  }

  /** A response object holding only configured agents with text shows a
      card for every entry, in order. */
  lemma AllConfiguredShown(entries: seq<Entry>)
    requires entries != []
    requires forall i :: 0 <= i < |entries| ==> Shown(entries[i])
    ensures Render(Some(entries)) == CardGrid(entries)
  {
    Seqs.FilterKeepsAll(entries, Shown);
  }

  /** What the results modal shows in its header. */
  datatype ModalView = ModalView(objective: string, businessBadge: string, audienceBadge: string, credits: int, body: Display)

  /** `x?.name || fallback`. */
  function NameOr(r: Option<NamedRef>, fallback: string): (s: string)
    ensures r.Some? && Truthy(r.value.name) ==> s == r.value.name.value
    ensures !(r.Some? && Truthy(r.value.name)) ==> s == fallback
  {
    match r
    case None => fallback
    case Some(n) => OrElse(n.name, fallback)
  }

  /** `SessionResultsModal`: nothing unless it is open and has a session. */
  function ResultsModal(session: Option<Session>, isOpen: bool): (r: Option<ModalView>)
    ensures r.Some? <==> isOpen && session.Some?
    ensures r.Some? ==>
      r.value.objective == session.value.missionObjective
      && r.value.credits == session.value.creditsConsumed
      && r.value.body == Render(session.value.aiResponses)
  {
    if !isOpen || session.None? then None
    else
      var s := session.value;
      Some(ModalView(s.missionObjective, NameOr(s.businessType, "Unknown Business"),
        NameOr(s.targetAudience, "Unknown Audience"), s.creditsConsumed, Render(s.aiResponses)))
  }

  /** `getStatusColor` of the session card. */
  function StatusColor(status: string): (r: string)
    ensures status == "active" <==> r == "bg-green-100 text-green-800"
    ensures status == "completed" <==> r == "bg-blue-100 text-blue-800"
    ensures status !in {"active", "completed"} <==> r == "bg-gray-100 text-gray-800"
  {
    if status == "active" then "bg-green-100 text-green-800"
    else if status == "completed" then "bg-blue-100 text-blue-800"
    else if status == "archived" then "bg-gray-100 text-gray-800"
    else "bg-gray-100 text-gray-800"
  }

  /** The "Responses" figure: the number of keys, or 0 without responses. */
  function ResponseCount(responses: Option<seq<Entry>>): (n: nat)
    ensures responses.None? ==> n == 0
    ensures responses.Some? ==> n == |responses.value|
  {
    if responses.Some? then |responses.value| else 0
  }

  /** The count on the card is never below the number of agent cards the
      same session shows. */
  lemma CountCoversCards(responses: Option<seq<Entry>>)
    ensures Render(responses).CardGrid? ==> |Render(responses).cards| <= ResponseCount(responses)
    ensures Render(responses) == Placeholder <==> ResponseCount(responses) == 0
  {
  }

  /** The summary line of a `SessionCard`. */
  datatype CardSummary = CardSummary(statusColor: string, business: string, audience: string, credits: int, responses: nat)

  function SessionSummary(s: Session): CardSummary
  {
    CardSummary(StatusColor(s.status), NameOr(s.businessType, "Unknown"), NameOr(s.targetAudience, "Unknown"),
      s.creditsConsumed, ResponseCount(s.aiResponses))
  }

  /** The copy button's check mark: `copiedAgent` is the agent whose text
      was last copied, until the two-second timer clears it. */
  class CopyFeedback {
    var copiedAgent: Option<string>

    constructor()
      ensures copiedAgent == None
    {
      copiedAgent := None;
    }

    /** `copyToClipboard`, with `written` telling whether the clipboard
        accepted the text; a refusal is only logged. */
    method Copy(agentType: string, written: bool)
      modifies this
      ensures written ==> copiedAgent == Some(agentType)
      ensures !written ==> copiedAgent == old(copiedAgent)
    {
      if written {
        copiedAgent := Some(agentType);
      }
    }

    /** The timer set after a copy. */
    method ClearTimer()
      modifies this
      ensures copiedAgent == None
    {
      copiedAgent := None;
    }

    /** Whether the card of `agentType` shows the check mark. */
    predicate Checked(agentType: string)
      reads this
    {
      copiedAgent == Some(agentType)
    }
  }
}

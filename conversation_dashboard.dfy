/** The enhanced conversation dashboard: a business is chosen, a debate is
    started, paused, resumed, stopped or reset through the backend, and a
    polling interval adds one simulated message from four rotating agents
    every three seconds until sixteen exist; a timer then marks the debate
    completed. Backend answers are parameters (`Returned` for a resolved
    request, `Threw` with the error's message otherwise), and so are the
    clock readings. Intervals are identified by the handles `setInterval`
    hands out. */
module ConversationDashboard {
  import opened Values
  import Text

  datatype ConvState = Stopped | Running | Paused | Completed
  {
    /** The state's name as the source spells it. */
    function Name(): string
    {
      match this
      case Stopped => "stopped"
      case Running => "running"
      case Paused => "paused"
      case Completed => "completed"
    }
  }

  /** The four debating agents of `aiAgents`, with their display name,
      model and role. */
  datatype DashAgent = Promoter | Analyst | Evaluator | Researcher
  {
    function Name(): string
    {
      match this
      case Promoter => "Business Promoter"
      case Analyst => "Critical Analyst"
      case Evaluator => "Neutral Evaluator"
      case Researcher => "Market Researcher"
    }

    function Model(): string
    {
      match this
      case Promoter => "GPT-4"
      case Analyst => "Claude-3"
      case Evaluator => "Gemini Pro"
      case Researcher => "Perplexity"
    }

    function Role(): string
    {
      match this
      case Promoter => "Advocate for the business with factual, compelling arguments"
      case Analyst => "Ask tough questions and challenge claims objectively"
      case Evaluator => "Provide balanced analysis and mediate discussions"
      case Researcher => "Provide real-time market data and competitive analysis"
    }
  }

  /** `aiAgents`, in order. */
  const Agents: seq<DashAgent> := [Promoter, Analyst, Evaluator, Researcher]

  /** The number of simulated messages after which no more are added. */
  const MessageLimit: nat := 16

  datatype DashBusiness = DashBusiness(businessTypeId: string, name: string, industryCategory: Option<string>)

  /** A simulated message. Its `agent_name` is `agent.Name()` and its text
      is `Content()`: the text is kept as the business name and the
      message's position it is built from. */
  datatype DashMessage = DashMessage(
    id: string,
    agent: DashAgent,
    about: string,
    index: nat,
    timestamp: string,
    conversationId: Option<string>,
    businessId: string)
  {
    function Content(): string
    {
      SimulatedContent(about, index)
    }
  }

  datatype Stats = Stats(totalMessages: nat, currentRound: nat, duration: nat)

  const NoBusinessSelected: string := "No business selected"

  /** Position `i` holds the first business with the given id. */
  predicate FirstWithId(businesses: seq<DashBusiness>, id: string, i: int)
  {
    0 <= i < |businesses| && businesses[i].businessTypeId == id
    && forall j :: 0 <= j < i ==> businesses[j].businessTypeId != id
  }

  /** `getSelectedBusinessName`: the name of the first business with the
      selected id, or the fallback text. */
  function SelectedBusinessName(businesses: seq<DashBusiness>, selected: string): (r: string)
    ensures (forall i :: 0 <= i < |businesses| ==> businesses[i].businessTypeId != selected) ==> r == NoBusinessSelected
    ensures forall i :: FirstWithId(businesses, selected, i) ==> r == businesses[i].name
  {
    if businesses == [] then NoBusinessSelected
    else if businesses[0].businessTypeId == selected then businesses[0].name
    else SelectedBusinessName(businesses[1..], selected)
  }

  /** The text of the n-th simulated message (counting from 0). */
  function SimulatedContent(businessName: string, n: nat): string
  {
    "This is a simulated AI response about " + businessName + ". Message " + Text.Decimal(n + 1)
    + " analyzing the business from the perspective of " + Text.ToLower(Agents[n % 4].Role()) + "."
  }

  /** The message a tick adds when `n` messages exist. */
  function SimulatedMessage(n: nat, businessName: string, nowMs: nat, nowIso: string, conversationId: Option<string>, businessId: string): (m: DashMessage)
    ensures m.agent == Agents[n % 4] && m.about == businessName && m.index == n
  {
    DashMessage("msg_" + Text.Decimal(nowMs), Agents[n % 4], businessName, n, nowIso, conversationId, businessId)
  }

  /** The statistics shown after `n` simulated messages. */
  function StatsAfter(n: nat): (s: Stats)
    ensures s.totalMessages == n && s.duration == 5 * n
    ensures n > 0 ==> (s.currentRound - 1) * 4 <= n < s.currentRound * 4
  {
    Stats(n, n / 4 + 1, 5 * n)
  }

  /** One tick's update of the statistics. */
  function NextStats(prev: Stats): (s: Stats)
  {
    Stats(prev.totalMessages + 1, (prev.totalMessages + 1) / 4 + 1, prev.duration + 5)
  }

  /** Ticking from the statistics of `n` messages gives those of `n + 1`,
      whatever the round was. */
  lemma NextStatsAfter(n: nat, round: nat)
    ensures NextStats(Stats(n, round, 5 * n)) == StatsAfter(n + 1)
  {
  }

  /** The Duration card: the elapsed seconds as `m:ss`. */
  function DurationLabel(s: Stats): (r: string)
    ensures Text.IsDuration(r, s.duration)
  {
    Text.FormatDuration(s.duration)
  }

  /** Which buttons of the control row are shown, and whether Start can be
      pressed. */
  datatype Controls = Controls(start: bool, startEnabled: bool, pause: bool, resume: bool, stop: bool, reset: bool)

  function ControlsFor(state: ConvState, conversationId: Option<string>, selectedBusiness: string, loading: bool): (c: Controls)
    ensures c.start <==> state == Stopped
    ensures c.startEnabled <==> selectedBusiness != "" && !loading
    ensures c.pause <==> state == Running
    ensures c.resume <==> state == Paused
    ensures c.stop <==> state == Running || state == Paused
    ensures c.reset <==> Truthy(conversationId)
  {
    Controls(state == Stopped, selectedBusiness != "" && !loading, state == Running, state == Paused,
      state == Running || state == Paused, Truthy(conversationId))
  }

  /** The buttons a user can press. */
  datatype Action = StartAction | PauseAction | ResumeAction | StopAction

  /** The state machine the buttons are meant to drive: where an action
      leads from a state, if it applies there at all. */
  function Transition(state: ConvState, action: Action): Option<ConvState>
  {
    match (state, action)
    case (Stopped, StartAction) => Some(Running)
    case (Running, PauseAction) => Some(Paused)
    case (Paused, ResumeAction) => Some(Running)
    case (Running, StopAction) => Some(Stopped)
    case (Paused, StopAction) => Some(Stopped)
    case _ => None
  }

  function Offered(c: Controls, action: Action): bool
  {
    match action
    case StartAction => c.start
    case PauseAction => c.pause
    case ResumeAction => c.resume
    case StopAction => c.stop
  }

  /** A button is shown exactly when its action is a transition of the
      current state; in particular a completed debate offers none of them. */
  lemma ControlsFollowTransitions(state: ConvState, id: Option<string>, selected: string, loading: bool, action: Action)
    ensures Offered(ControlsFor(state, id, selected, loading), action) <==> Transition(state, action).Some?
  {
  }

  /** The colour of the state dot. */
  function StateDotColor(state: ConvState): (r: string)
    ensures r == "bg-green-500" <==> state == Running
    ensures r == "bg-yellow-500" <==> state == Paused
    ensures r == "bg-blue-500" <==> state == Completed
    ensures r == "bg-gray-400" <==> state == Stopped
  {
    match state
    case Running => "bg-green-500"
    case Paused => "bg-yellow-500"
    case Completed => "bg-blue-500"
    case Stopped => "bg-gray-400"
  }

  class Dashboard {
    var businesses: seq<DashBusiness>
    var selectedBusiness: string
    var conversationState: ConvState
    var currentConversationId: Option<string>
    var messages: seq<DashMessage>
    var stats: Stats
    var loading: bool
    var error: Option<string>
    var activeTab: string
    /** The handle stored in `pollingInterval`. */
    var pollingInterval: Option<nat>
    /** Intervals not yet cleared, each with the conversation id it polls. */
    var liveIntervals: map<nat, Option<string>>
    var nextHandle: nat
    /** Completion timers scheduled and not yet fired. */
    var pendingCompletions: nat

    /** The messages come from the four agents in turn, never more than
        sixteen; the statistics are those of the messages shown, or all zero
        before any start or after a reset; the stored handle is a live
        one. */
    ghost predicate Valid()
      reads this
    {
      && |messages| <= MessageLimit
      && (forall i :: 0 <= i < |messages| ==> messages[i].agent == Agents[i % 4])
      && (stats == StatsAfter(|messages|) || (messages == [] && stats == Stats(0, 0, 0)))
      && (pollingInterval.Some? ==> pollingInterval.value in liveIntervals)
      && 1 <= nextHandle
      && (forall h :: h in liveIntervals ==> 1 <= h < nextHandle)
    }

    constructor(businesses: seq<DashBusiness>)
      ensures Valid()
      ensures this.businesses == businesses && selectedBusiness == ""
      ensures conversationState == Stopped && currentConversationId == None
      ensures messages == [] && stats == Stats(0, 0, 0)
      ensures !loading && error == None && activeTab == "conversation"
      ensures pollingInterval == None && liveIntervals == map[] && pendingCompletions == 0
    {
      this.businesses := businesses;
      selectedBusiness := "";
      conversationState := Stopped;
      currentConversationId := None;
      messages := [];
      stats := Stats(0, 0, 0);
      loading := false;
      error := None;
      activeTab := "conversation";
      pollingInterval := None;
      liveIntervals := map[];
      nextHandle := 1;
      pendingCompletions := 0;
    }

    /** `startMessagePolling`: a new interval polls `conversationId` and its
        handle replaces the stored one; an interval already running is not
        cleared. */
    method StartMessagePolling(conversationId: Option<string>)
      requires Valid()
      modifies this
      ensures Valid()
      ensures pollingInterval == Some(old(nextHandle)) && nextHandle == old(nextHandle) + 1
      ensures old(nextHandle) !in old(liveIntervals)
      ensures liveIntervals == old(liveIntervals)[old(nextHandle) := conversationId]
      ensures businesses == old(businesses) && selectedBusiness == old(selectedBusiness)
      ensures conversationState == old(conversationState) && currentConversationId == old(currentConversationId)
      ensures messages == old(messages) && stats == old(stats)
      ensures loading == old(loading) && error == old(error) && activeTab == old(activeTab)
      ensures pendingCompletions == old(pendingCompletions)
    {
      var handle := nextHandle;
      liveIntervals := liveIntervals[handle := conversationId];
      pollingInterval := Some(handle);
      nextHandle := nextHandle + 1;
    }

    /** `stopMessagePolling`: clears the stored interval, if any; other
        live intervals keep running. */
    method StopMessagePolling()
      requires Valid()
      modifies this
      ensures Valid()
      ensures pollingInterval == None
      ensures old(pollingInterval).None? ==> liveIntervals == old(liveIntervals)
      ensures old(pollingInterval).Some? ==> liveIntervals == old(liveIntervals) - {old(pollingInterval).value}
      ensures nextHandle == old(nextHandle)
      ensures businesses == old(businesses) && selectedBusiness == old(selectedBusiness)
      ensures conversationState == old(conversationState) && currentConversationId == old(currentConversationId)
      ensures messages == old(messages) && stats == old(stats)
      ensures loading == old(loading) && error == old(error) && activeTab == old(activeTab)
      ensures pendingCompletions == old(pendingCompletions)
    {
      if pollingInterval.Some? {
        liveIntervals := liveIntervals - {pollingInterval.value};
        assert forall h :: h in liveIntervals ==> h in old(liveIntervals);
        pollingInterval := None;
      }
    }

    /** `handleStartConversation`, with `r` the outcome of the start request
        (the returned `conversation_id`). Without a selected business only
        the error is set. */
    method HandleStart(r: Call<Option<string>>)
      requires Valid()
      modifies this
      ensures Valid()
      ensures businesses == old(businesses) && selectedBusiness == old(selectedBusiness)
      ensures activeTab == old(activeTab) && pendingCompletions == old(pendingCompletions)
      ensures selectedBusiness == "" ==>
        error == Some("Please select a business first") && loading == old(loading)
        && conversationState == old(conversationState) && currentConversationId == old(currentConversationId)
        && messages == old(messages) && stats == old(stats)
        && pollingInterval == old(pollingInterval) && liveIntervals == old(liveIntervals)
      ensures selectedBusiness != "" ==> !loading
      ensures selectedBusiness != "" && r.Returned? ==>
        error == None && currentConversationId == r.value && conversationState == Running
        && messages == [] && stats == Stats(0, 1, 0)
        && pollingInterval == Some(old(nextHandle)) && liveIntervals == old(liveIntervals)[old(nextHandle) := r.value]
      ensures selectedBusiness != "" && r.Threw? ==>
        error == Some("Failed to start conversation: " + r.message)
        && conversationState == old(conversationState) && currentConversationId == old(currentConversationId)
        && messages == old(messages) && stats == old(stats)
        && pollingInterval == old(pollingInterval) && liveIntervals == old(liveIntervals)
    {
      if selectedBusiness == "" {
        error := Some("Please select a business first");
        return;
      }
      loading := true;
      error := None;
      match r {
        case Returned(conversationId) =>
          Begin(conversationId);
        case Threw(message) =>
          error := Some("Failed to start conversation: " + message);
      }
      loading := false;
    }

    /** The success branch of `handleStartConversation`: the new
        conversation runs from no messages in round one, and is polled. */
    method Begin(conversationId: Option<string>)
      requires Valid()
      modifies this
      ensures Valid()
      ensures currentConversationId == conversationId && conversationState == Running
      ensures messages == [] && stats == Stats(0, 1, 0)
      ensures pollingInterval == Some(old(nextHandle)) && liveIntervals == old(liveIntervals)[old(nextHandle) := conversationId]
      ensures businesses == old(businesses) && selectedBusiness == old(selectedBusiness)
      ensures loading == old(loading) && error == old(error) && activeTab == old(activeTab)
      ensures pendingCompletions == old(pendingCompletions)
    {
      currentConversationId := conversationId;
      conversationState := Running;
      messages := [];
      stats := Stats(0, 1, 0);
      StartMessagePolling(conversationId);
    }

    /** `handlePauseConversation`: with a conversation and a resolved
        request the state becomes paused; polling goes on. */
    method HandlePause(r: Call<()>)
      requires Valid()
      modifies this
      ensures Valid()
      ensures businesses == old(businesses) && selectedBusiness == old(selectedBusiness)
      ensures currentConversationId == old(currentConversationId) && messages == old(messages) && stats == old(stats)
      ensures loading == old(loading) && activeTab == old(activeTab) && pendingCompletions == old(pendingCompletions)
      ensures pollingInterval == old(pollingInterval) && liveIntervals == old(liveIntervals)
      ensures !Truthy(old(currentConversationId)) ==> conversationState == old(conversationState) && error == old(error)
      ensures Truthy(old(currentConversationId)) && r.Returned? ==> conversationState == Paused && error == old(error)
      ensures Truthy(old(currentConversationId)) && r.Threw? ==>
        conversationState == old(conversationState) && error == Some("Failed to pause conversation: " + r.message)
    {
      if !Truthy(currentConversationId) {
        return;
      }
      match r
      case Returned(_) =>
        conversationState := Paused;
      case Threw(message) =>
        error := Some("Failed to pause conversation: " + message);
    }

    /** `handleResumeConversation`: with a conversation and a resolved
        request the state becomes running and a further interval starts. */
    method HandleResume(r: Call<()>)
      requires Valid()
      modifies this
      ensures Valid()
      ensures businesses == old(businesses) && selectedBusiness == old(selectedBusiness)
      ensures currentConversationId == old(currentConversationId) && messages == old(messages) && stats == old(stats)
      ensures loading == old(loading) && activeTab == old(activeTab) && pendingCompletions == old(pendingCompletions)
      ensures !Truthy(old(currentConversationId)) ==>
        conversationState == old(conversationState) && error == old(error)
        && pollingInterval == old(pollingInterval) && liveIntervals == old(liveIntervals)
      ensures Truthy(old(currentConversationId)) && r.Returned? ==>
        conversationState == Running && error == old(error)
        && pollingInterval == Some(old(nextHandle))
        && liveIntervals == old(liveIntervals)[old(nextHandle) := currentConversationId]
      ensures Truthy(old(currentConversationId)) && r.Threw? ==>
        conversationState == old(conversationState) && error == Some("Failed to resume conversation: " + r.message)
        && pollingInterval == old(pollingInterval) && liveIntervals == old(liveIntervals)
    {
      if !Truthy(currentConversationId) {
        return;
      }
      match r
      case Returned(_) =>
        conversationState := Running;
        StartMessagePolling(currentConversationId);
      case Threw(message) =>
        error := Some("Failed to resume conversation: " + message);
    }

    /** `handleStopConversation`: with a conversation and a resolved request
        the state becomes stopped, the id is dropped and the stored interval
        is cleared. */
    method HandleStop(r: Call<()>)
      requires Valid()
      modifies this
      ensures Valid()
      ensures businesses == old(businesses) && selectedBusiness == old(selectedBusiness)
      ensures messages == old(messages) && stats == old(stats)
      ensures loading == old(loading) && activeTab == old(activeTab) && pendingCompletions == old(pendingCompletions)
      ensures !Truthy(old(currentConversationId)) ==>
        conversationState == old(conversationState) && currentConversationId == old(currentConversationId)
        && error == old(error) && pollingInterval == old(pollingInterval) && liveIntervals == old(liveIntervals)
      ensures Truthy(old(currentConversationId)) && r.Returned? ==>
        conversationState == Stopped && currentConversationId == None && error == old(error)
        && pollingInterval == None
        && liveIntervals == (if old(pollingInterval).Some? then old(liveIntervals) - {old(pollingInterval).value} else old(liveIntervals))
      ensures Truthy(old(currentConversationId)) && r.Threw? ==>
        conversationState == old(conversationState) && currentConversationId == old(currentConversationId)
        && error == Some("Failed to stop conversation: " + r.message)
        && pollingInterval == old(pollingInterval) && liveIntervals == old(liveIntervals)
    {
      if !Truthy(currentConversationId) {
        return;
      }
      match r
      case Returned(_) =>
        conversationState := Stopped;
        currentConversationId := None;
        StopMessagePolling();
      case Threw(message) =>
        error := Some("Failed to stop conversation: " + message);
    }

    /** `handleResetConversation`: with a conversation and a resolved
        request the messages and statistics are cleared, the state becomes
        stopped and the id is dropped. Polling is not stopped. */
    method HandleReset(r: Call<()>)
      requires Valid()
      modifies this
      ensures Valid()
      ensures businesses == old(businesses) && selectedBusiness == old(selectedBusiness)
      ensures loading == old(loading) && activeTab == old(activeTab) && pendingCompletions == old(pendingCompletions)
      ensures pollingInterval == old(pollingInterval) && liveIntervals == old(liveIntervals)
      ensures !Truthy(old(currentConversationId)) ==>
        conversationState == old(conversationState) && currentConversationId == old(currentConversationId)
        && messages == old(messages) && stats == old(stats) && error == old(error)
      ensures Truthy(old(currentConversationId)) && r.Returned? ==>
        messages == [] && stats == Stats(0, 0, 0) && conversationState == Stopped
        && currentConversationId == None && error == old(error)
      ensures Truthy(old(currentConversationId)) && r.Threw? ==>
        conversationState == old(conversationState) && currentConversationId == old(currentConversationId)
        && messages == old(messages) && stats == old(stats)
        && error == Some("Failed to reset conversation: " + r.message)
    {
      if !Truthy(currentConversationId) {
        return;
      }
      match r
      case Returned(_) =>
        messages := [];
        stats := Stats(0, 0, 0);
        conversationState := Stopped;
        currentConversationId := None;
      case Threw(message) =>
        error := Some("Failed to reset conversation: " + message);
    }

    /** One firing of the live interval `handle`: below sixteen messages it
        adds the next agent's message, advances the statistics by one
        message and five seconds, and after the fifteenth message it
        schedules completion. The clock readings are parameters. */
    method Tick(handle: nat, nowMs: nat, nowIso: string)
      requires Valid()
      requires handle in liveIntervals
      modifies this
      ensures Valid()
      ensures businesses == old(businesses) && selectedBusiness == old(selectedBusiness)
      ensures conversationState == old(conversationState) && currentConversationId == old(currentConversationId)
      ensures loading == old(loading) && error == old(error) && activeTab == old(activeTab)
      ensures pollingInterval == old(pollingInterval) && liveIntervals == old(liveIntervals) && nextHandle == old(nextHandle)
      ensures |old(messages)| >= MessageLimit ==>
        messages == old(messages) && stats == old(stats) && pendingCompletions == old(pendingCompletions)
      ensures |old(messages)| < MessageLimit ==>
        var n := |old(messages)|;
        && messages == old(messages) + [SimulatedMessage(n, SelectedBusinessName(businesses, selectedBusiness),
             nowMs, nowIso, liveIntervals[handle], selectedBusiness)]
        && stats == StatsAfter(n + 1)
        && pendingCompletions == old(pendingCompletions) + (if n == MessageLimit - 1 then 1 else 0)
    {
      if |messages| < MessageLimit {
        var m := SimulatedMessage(|messages|, SelectedBusinessName(businesses, selectedBusiness), nowMs, nowIso,
          liveIntervals[handle], selectedBusiness);
        Append(m);
      }
    }

    /** The update a tick makes below the limit: the message goes at the
        end, the statistics advance by one message and five seconds, and
        the fifteenth message schedules completion. */
    method Append(m: DashMessage)
      requires Valid()
      requires |messages| < MessageLimit && m.agent == Agents[|messages| % 4]
      modifies this
      ensures Valid()
      ensures messages == old(messages) + [m] && stats == StatsAfter(|messages|)
      ensures pendingCompletions == old(pendingCompletions) + (if |old(messages)| == MessageLimit - 1 then 1 else 0)
      ensures businesses == old(businesses) && selectedBusiness == old(selectedBusiness)
      ensures conversationState == old(conversationState) && currentConversationId == old(currentConversationId)
      ensures loading == old(loading) && error == old(error) && activeTab == old(activeTab)
      ensures pollingInterval == old(pollingInterval) && liveIntervals == old(liveIntervals) && nextHandle == old(nextHandle)
    {
      var n := |messages|;
      messages := messages + [m];
      NextStatsAfter(n, stats.currentRound);
      stats := NextStats(stats);
      if n == MessageLimit - 1 {
        pendingCompletions := pendingCompletions + 1;
      }
    }

    /** The three-second completion timer: the debate is completed, the
        stored interval is cleared and the search tab is shown. */
    method FireCompletion()
      requires Valid()
      requires pendingCompletions > 0
      modifies this
      ensures Valid()
      ensures conversationState == Completed && activeTab == "ai-search"
      ensures pendingCompletions == old(pendingCompletions) - 1
      ensures pollingInterval == None
      ensures old(pollingInterval).Some? ==> liveIntervals == old(liveIntervals) - {old(pollingInterval).value}
      ensures old(pollingInterval).None? ==> liveIntervals == old(liveIntervals)
      ensures businesses == old(businesses) && selectedBusiness == old(selectedBusiness)
      ensures currentConversationId == old(currentConversationId) && messages == old(messages) && stats == old(stats)
      ensures loading == old(loading) && error == old(error)
    {
      conversationState := Completed;
      StopMessagePolling();
      activeTab := "ai-search";
      pendingCompletions := pendingCompletions - 1;
    }

    /** `setSelectedBusiness` from the business menu, which is disabled
        while a conversation is running. */
    method SelectBusiness(id: string)
      requires Valid()
      requires conversationState != Running
      modifies this
      ensures Valid()
      ensures selectedBusiness == id
      ensures businesses == old(businesses) && conversationState == old(conversationState)
      ensures currentConversationId == old(currentConversationId) && messages == old(messages) && stats == old(stats)
      ensures loading == old(loading) && error == old(error) && activeTab == old(activeTab)
      ensures pollingInterval == old(pollingInterval) && liveIntervals == old(liveIntervals)
      ensures pendingCompletions == old(pendingCompletions)
    {
      selectedBusiness := id;
    }
  }

  /** In any reachable state the statistics are those of the messages
      shown, and a full debate ends in round five after 80 seconds. */
  lemma StatsMatchMessages(d: Dashboard)
    requires d.Valid()
    ensures d.stats.totalMessages == |d.messages| && d.stats.duration == 5 * |d.messages|
    ensures |d.messages| == MessageLimit ==> d.stats == Stats(16, 5, 80)
    ensures 0 < |d.messages| ==> (d.stats.currentRound - 1) * 4 <= |d.messages| < d.stats.currentRound * 4
  {
  }

  /** A full debate's Duration card reads `1:20`. */
  lemma FullDebateLabel(d: Dashboard)
    requires d.Valid() && |d.messages| == MessageLimit
    ensures DurationLabel(d.stats) == "1:20"
  {
    StatsMatchMessages(d);
    assert Text.Decimal(80 / 60) == "1";
    assert Text.ToBase(2, 10) == "2";
    assert Text.Decimal(80 % 60) == "20";
  }

  /** Each agent speaks every fourth message: in any reachable state a
      message and the one four places later come from the same agent. */
  lemma AgentsRotate(d: Dashboard, i: nat)
    requires d.Valid()
    requires i + 4 < |d.messages|
    ensures d.messages[i].agent == d.messages[i + 4].agent
  {
    assert (i + 4) % 4 == i % 4;
  }
}

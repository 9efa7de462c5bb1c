/** The plain conversation panel: the same start, pause, resume and stop
    controls as the enhanced dashboard, but the state, the statistics and
    the messages come from the backend, fetched every two seconds while a
    conversation is running. The state is whatever string the backend
    reports. A request's outcome is a parameter: `Threw` when `fetch` or
    the JSON decoding fails, `Returned` with the decoded fields otherwise. */
module ConversationPanel {
  import opened Values

  datatype PanelBusiness = PanelBusiness(id: int, name: string, industryCategory: Option<string>)

  datatype PanelMessage = PanelMessage(agentName: string, content: string, timestamp: Option<string>)

  datatype PanelStats = PanelStats(totalMessages: int, currentRound: int, lastActivity: Option<string>)

  /** The answer to the start request. */
  datatype StartResponse = StartResponse(ok: bool, conversationId: Option<string>, error: Option<string>)

  /** The answer to the status request. */
  datatype StatusData = StatusData(state: Option<string>, totalMessages: Option<int>, currentRound: Option<int>, lastActivity: Option<string>)

  const StartFailed: string := "Failed to start conversation"

  /** `n || 0` on a count the backend may leave out. */
  function OrZero(n: Option<int>): (r: int)
    ensures n.Some? ==> r == n.value
    ensures n.None? ==> r == 0
  {
    match n
    case Some(v) => v
    case None => 0
  }

  /** The guard of the polling effect: an interval runs only for a
      conversation that is running. */
  predicate PollingActive(conversationId: Option<string>, state: string)
  {
    Truthy(conversationId) && state == "running"
  }

  /** `getStateColor`. */
  function StateColor(state: string): (r: string)
    ensures state == "running" <==> r == "bg-green-500"
    ensures state == "paused" <==> r == "bg-yellow-500"
    ensures state == "completed" <==> r == "bg-blue-500"
    ensures state !in {"running", "paused", "completed"} <==> r == "bg-gray-500"
  {
    if state == "running" then "bg-green-500"
    else if state == "paused" then "bg-yellow-500"
    else if state == "stopped" then "bg-gray-500"
    else if state == "completed" then "bg-blue-500"
    else "bg-gray-500"
  }

  /** `getAgentColor`: the four agents' badge colours, grey for anyone
      else. */
  function AgentColor(agentName: string): (r: string)
    ensures agentName !in {"Business Promoter", "Critical Analyst", "Neutral Evaluator", "Market Researcher"} <==>
      r == "bg-gray-100 text-gray-800"
    ensures agentName == "Business Promoter" <==> r == "bg-blue-100 text-blue-800"
    ensures agentName == "Critical Analyst" <==> r == "bg-red-100 text-red-800"
    ensures agentName == "Neutral Evaluator" <==> r == "bg-green-100 text-green-800"
    ensures agentName == "Market Researcher" <==> r == "bg-purple-100 text-purple-800"
  {
    if agentName == "Business Promoter" then "bg-blue-100 text-blue-800"
    else if agentName == "Critical Analyst" then "bg-red-100 text-red-800"
    else if agentName == "Neutral Evaluator" then "bg-green-100 text-green-800"
    else if agentName == "Market Researcher" then "bg-purple-100 text-purple-800"
    else "bg-gray-100 text-gray-800"
  }

  /** Which buttons are shown, and whether Start can be pressed. */
  datatype PanelControls = PanelControls(start: bool, startEnabled: bool, pause: bool, resume: bool, stop: bool, reset: bool)

  function ControlsFor(state: string, selected: Option<PanelBusiness>, loading: bool): (c: PanelControls)
    ensures c.start <==> state == "stopped"
    ensures c.startEnabled <==> selected.Some? && !loading
    ensures c.pause <==> state == "running"
    ensures c.resume <==> state == "paused"
    ensures c.stop <==> state == "running" || state == "paused"
    ensures c.reset
  {
    PanelControls(state == "stopped", selected.Some? && !loading, state == "running", state == "paused",
      state == "running" || state == "paused", true)
  }

  /** Stop is shown exactly when Pause or Resume is, and Start never
      together with any of them; a state the backend invents, such as
      `completed`, leaves only Reset. */
  lemma ControlsExclusive(state: string, selected: Option<PanelBusiness>, loading: bool)
    ensures var c := ControlsFor(state, selected, loading);
      && (c.stop <==> c.pause || c.resume)
      && !(c.start && c.stop)
      && (state !in {"stopped", "running", "paused"} ==> !c.start && !c.pause && !c.resume && !c.stop && c.reset)
  {
  }

  class Panel {
    var businesses: seq<PanelBusiness>
    var selectedBusiness: Option<PanelBusiness>
    var conversationId: Option<string>
    var conversationState: string
    var messages: seq<PanelMessage>
    var stats: PanelStats
    var loading: bool
    var error: Option<string>

    constructor(businesses: seq<PanelBusiness>)
      ensures this.businesses == businesses && selectedBusiness == None
      ensures conversationId == None && conversationState == "stopped"
      ensures messages == [] && stats == PanelStats(0, 0, None)
      ensures !loading && error == None
      ensures !PollingActive(conversationId, conversationState)
    {
      this.businesses := businesses;
      selectedBusiness := None;
      conversationId := None;
      conversationState := "stopped";
      messages := [];
      stats := PanelStats(0, 0, None);
      loading := false;
      error := None;
    }

    /** `startConversation`, with `r` the start request's outcome and
        `nowIso` the clock. Without a selected business only the error is
        set; otherwise loading ends in every case. */
    method Start(r: Call<StartResponse>, nowIso: string)
      modifies this
      ensures businesses == old(businesses) && selectedBusiness == old(selectedBusiness)
      ensures selectedBusiness.None? ==>
        error == Some("Please select a business first") && loading == old(loading)
        && conversationId == old(conversationId) && conversationState == old(conversationState)
        && messages == old(messages) && stats == old(stats)
      ensures selectedBusiness.Some? ==> !loading
      ensures selectedBusiness.Some? && r.Returned? && r.value.ok ==>
        conversationId == r.value.conversationId && conversationState == "running"
        && messages == [] && stats == PanelStats(0, 1, Some(nowIso)) && error == None
      ensures selectedBusiness.Some? && !(r.Returned? && r.value.ok) ==>
        conversationId == old(conversationId) && conversationState == old(conversationState)
        && messages == old(messages) && stats == old(stats)
      ensures selectedBusiness.Some? && r.Returned? && !r.value.ok ==> error == Some(OrElse(r.value.error, StartFailed))
      ensures selectedBusiness.Some? && r.Threw? ==> error == Some(StartFailed)
    {
      if selectedBusiness.None? {
        error := Some("Please select a business first");
        return;
      }
      loading := true;
      error := None;
      match r {
        case Returned(data) =>
          if data.ok {
            conversationId := data.conversationId;
            conversationState := "running";
            messages := [];
            stats := PanelStats(0, 1, Some(nowIso));
          } else {
            error := Some(OrElse(data.error, StartFailed));
          }
        case Threw(_) =>
          error := Some(StartFailed);
      }
      loading := false;
    }

    /** The shape shared by pause, resume and stop: with a conversation and
        an ok answer the state becomes `target`; otherwise nothing changes
        and no error is shown. `ok` is the answer's status, `Threw` a
        failed request. */
    method Control(r: Call<bool>, target: string)
      modifies this
      ensures businesses == old(businesses) && selectedBusiness == old(selectedBusiness)
      ensures conversationId == old(conversationId) && messages == old(messages) && stats == old(stats)
      ensures loading == old(loading) && error == old(error)
      ensures Truthy(old(conversationId)) && r == Returned(true) ==> conversationState == target
      ensures !(Truthy(old(conversationId)) && r == Returned(true)) ==> conversationState == old(conversationState)
    {
      if !Truthy(conversationId) {
        return;
      }
      if r == Returned(true) {
        conversationState := target;
      }
    }

    /** `pauseConversation`. */
    method Pause(r: Call<bool>)
      modifies this
      ensures businesses == old(businesses) && selectedBusiness == old(selectedBusiness)
      ensures conversationId == old(conversationId) && messages == old(messages) && stats == old(stats)
      ensures loading == old(loading) && error == old(error)
      ensures Truthy(old(conversationId)) && r == Returned(true) ==> conversationState == "paused"
      ensures !(Truthy(old(conversationId)) && r == Returned(true)) ==> conversationState == old(conversationState)
      ensures !PollingActive(conversationId, conversationState) <== Truthy(old(conversationId)) && r == Returned(true)
    {
      Control(r, "paused");
    }

    /** `resumeConversation`. */
    method Resume(r: Call<bool>)
      modifies this
      ensures businesses == old(businesses) && selectedBusiness == old(selectedBusiness)
      ensures conversationId == old(conversationId) && messages == old(messages) && stats == old(stats)
      ensures loading == old(loading) && error == old(error)
      ensures Truthy(old(conversationId)) && r == Returned(true) ==> conversationState == "running"
      ensures !(Truthy(old(conversationId)) && r == Returned(true)) ==> conversationState == old(conversationState)
      ensures Truthy(old(conversationId)) && r == Returned(true) ==> PollingActive(conversationId, conversationState)
    {
      Control(r, "running");
    }

    /** `stopConversation`: the id is kept. */
    method Stop(r: Call<bool>)
      modifies this
      ensures businesses == old(businesses) && selectedBusiness == old(selectedBusiness)
      ensures conversationId == old(conversationId) && messages == old(messages) && stats == old(stats)
      ensures loading == old(loading) && error == old(error)
      ensures Truthy(old(conversationId)) && r == Returned(true) ==> conversationState == "stopped"
      ensures !(Truthy(old(conversationId)) && r == Returned(true)) ==> conversationState == old(conversationState)
      ensures !PollingActive(conversationId, conversationState) <== Truthy(old(conversationId)) && r == Returned(true)
    {
      Control(r, "stopped");
    }

    /** `resetConversation`: purely local, and it ends polling. */
    method Reset()
      modifies this
      ensures businesses == old(businesses) && selectedBusiness == old(selectedBusiness) && loading == old(loading)
      ensures conversationId == None && conversationState == "stopped"
      ensures messages == [] && stats == PanelStats(0, 0, None) && error == None
      ensures !PollingActive(conversationId, conversationState)
    {
      conversationId := None;
      conversationState := "stopped";
      messages := [];
      stats := PanelStats(0, 0, None);
      error := None;
    }

    /** `fetchConversationUpdates`, with `status` and `msgs` the outcomes of
        the two requests (`msgs.value` is the `messages` field of the
        answer). A reported state replaces the state and the statistics,
        missing counts reading as zero; a list of messages replaces the
        shown ones wholesale. When the status request fails the messages
        are not asked for. Errors are only logged. */
    method FetchUpdates(status: Call<StatusData>, msgs: Call<Option<seq<PanelMessage>>>)
      modifies this
      ensures businesses == old(businesses) && selectedBusiness == old(selectedBusiness)
      ensures conversationId == old(conversationId) && loading == old(loading) && error == old(error)
      ensures !Truthy(conversationId) || status.Threw? || !Truthy(status.value.state) ==>
        conversationState == old(conversationState) && stats == old(stats)
      ensures Truthy(conversationId) && status.Returned? && Truthy(status.value.state) ==>
        conversationState == status.value.state.value
        && stats == PanelStats(OrZero(status.value.totalMessages), OrZero(status.value.currentRound), status.value.lastActivity)
      ensures Truthy(conversationId) && status.Returned? && msgs.Returned? && msgs.value.Some? ==>
        messages == msgs.value.value
      ensures !(Truthy(conversationId) && status.Returned? && msgs.Returned? && msgs.value.Some?) ==>
        messages == old(messages)
    {
      if !Truthy(conversationId) {
        return;
      }
      match status {
        case Threw(_) =>
          return;
        case Returned(data) =>
          if Truthy(data.state) {
            conversationState := data.state.value;
            stats := PanelStats(OrZero(data.totalMessages), OrZero(data.currentRound), data.lastActivity);
          }
      }
      match msgs {
        case Threw(_) =>
        case Returned(list) =>
          if list.Some? {
            messages := list.value;
          }
      }
    }

    /** Choosing a business from the menu. */
    method SelectBusiness(b: Option<PanelBusiness>)
      modifies this
      ensures selectedBusiness == b
      ensures businesses == old(businesses) && conversationId == old(conversationId)
      ensures conversationState == old(conversationState) && messages == old(messages) && stats == old(stats)
      ensures loading == old(loading) && error == old(error)
    {
      selectedBusiness := b;
    }
  }
}

/** The AI-search publishing panel: the colour rules of the engine rows
    and platform rows, the error text of its request wrapper, the publish
    lifecycle (idle, publishing, published) and the impact figures. The
    clock is a parameter and the network answers are given outcomes. */
module SearchImpact {
  import opened Values
  import Text

  // ----- classifiers -----

  /** `getStatusColor` of an engine row, by mention count. */
  function MentionColor(mentions: int): (r: string)
    ensures mentions > 10 <==> r == "bg-green-500"
    ensures 5 < mentions <= 10 <==> r == "bg-yellow-500"
    ensures mentions <= 5 <==> r == "bg-gray-400"
  {
    if mentions > 10 then "bg-green-500"
    else if mentions > 5 then "bg-yellow-500"
    else "bg-gray-400"
  }

  /** The three colours ranked from worst to best. */
  function MentionRank(color: string): nat
  {
    if color == "bg-green-500" then 2 else if color == "bg-yellow-500" then 1 else 0
  }

  /** More mentions never give a worse colour. */
  lemma MentionColorMonotone(a: int, b: int)
    requires a <= b
    ensures MentionRank(MentionColor(a)) <= MentionRank(MentionColor(b))
  {
  }

  /** `getPositionColor`, by average position (a smaller position is a
      better one). */
  function PositionColor(avgPosition: real): (r: string)
    ensures avgPosition <= 2.0 <==> r == "text-green-600"
    ensures 2.0 < avgPosition <= 4.0 <==> r == "text-yellow-600"
    ensures avgPosition > 4.0 <==> r == "text-red-600"
  {
    if avgPosition <= 2.0 then "text-green-600"
    else if avgPosition <= 4.0 then "text-yellow-600"
    else "text-red-600"
  }

  /** The colour of a platform row by its status. */
  function PlatformColor(status: string): (r: string)
    ensures status in {"published", "submitted"} <==> r == "bg-green-50 text-green-700 border-green-200"
    ensures status == "pending" <==> r == "bg-yellow-50 text-yellow-700 border-yellow-200"
    ensures status !in {"published", "submitted", "pending"} <==> r == "bg-gray-50 text-gray-700 border-gray-200"
  {
    if status == "published" || status == "submitted" then "bg-green-50 text-green-700 border-green-200"
    else if status == "pending" then "bg-yellow-50 text-yellow-700 border-yellow-200"
    else "bg-gray-50 text-gray-700 border-gray-200"
  }

  /** One entry of `publishing_results`: `{ status }`, possibly absent. */
  datatype PlatformResult = PlatformResult(status: Option<string>)

  /** `entry?.status || 'pending'`. */
  function StatusOf(entry: Option<PlatformResult>): (r: string)
    ensures entry.Some? && Truthy(entry.value.status) ==> r == entry.value.status.value
    ensures !(entry.Some? && Truthy(entry.value.status)) ==> r == "pending"
  {
    match entry
    case None => "pending"
    case Some(p) => OrElse(p.status, "pending")
  }

  /** A platform that has reported nothing is shown as pending, in
      yellow. */
  lemma MissingStatusIsPending(entry: Option<PlatformResult>)
    requires entry.None? || !Truthy(entry.value.status)
    ensures PlatformColor(StatusOf(entry)) == "bg-yellow-50 text-yellow-700 border-yellow-200"
  {
  }

  datatype PublishingResults = PublishingResults(
    googleIndexing: Option<PlatformResult>,
    bingIndexing: Option<PlatformResult>,
    linkedinPost: Option<PlatformResult>,
    twitterPost: Option<PlatformResult>,
    businessDirectories: Option<PlatformResult>,
    knowledgeGraphs: Option<PlatformResult>)

  /** One row of the "Publishing Status" card. */
  datatype PlatformRow = PlatformRow(platform: string, status: string, url: Option<string>)

  /** The platforms of the "Publishing Status" card, top to bottom. */
  const PlatformNames: seq<string> := [
    "Google Search", "Bing Search", "LinkedIn", "Twitter", "Business Directories", "Knowledge Graphs"
  ]

  /** The six rows, in their fixed order; only the two search engines
      link to the public page. */
  function PlatformRows(p: PublishingResults, publicUrl: Option<string>): (rows: seq<PlatformRow>)
    ensures |rows| == 6
    ensures forall i :: 0 <= i < 6 ==> (rows[i].url.Some? <==> i < 2 && publicUrl.Some?)
    ensures forall i :: 0 <= i < 6 ==> rows[i].platform == PlatformNames[i]
    ensures rows[0].status == StatusOf(p.googleIndexing) && rows[1].status == StatusOf(p.bingIndexing)
    ensures rows[2].status == StatusOf(p.linkedinPost) && rows[3].status == StatusOf(p.twitterPost)
    ensures rows[4].status == StatusOf(p.businessDirectories) && rows[5].status == StatusOf(p.knowledgeGraphs)
  {
    var url := publicUrl;
    [ PlatformRow("Google Search", StatusOf(p.googleIndexing), url),
      PlatformRow("Bing Search", StatusOf(p.bingIndexing), url),
      PlatformRow("LinkedIn", StatusOf(p.linkedinPost), None),
      PlatformRow("Twitter", StatusOf(p.twitterPost), None),
      PlatformRow("Business Directories", StatusOf(p.businessDirectories), None),
      PlatformRow("Knowledge Graphs", StatusOf(p.knowledgeGraphs), None) ]
  }

  function UpperChar(c: char): (r: char)
    ensures 'a' <= c <= 'z' ==> r as int == c as int - 32
    ensures !('a' <= c <= 'z') ==> r == c
  {
    if 'a' <= c <= 'z' then (c as int - 32) as char else c
  }

  /** `engine.charAt(0).toUpperCase() + engine.slice(1)` on ASCII. */
  function Capitalize(s: string): (r: string)
    ensures |r| == |s|
    ensures s != [] ==> r[0] == UpperChar(s[0]) && r[1..] == s[1..]
  {
    if s == [] then [] else [UpperChar(s[0])] + s[1..]
  }

  // ----- the request wrapper -----

  /** The error a non-ok answer raises: its `message`, else the status
      line. */
  function HttpError(message: Option<string>, status: int, statusText: string): (r: string)
    ensures Truthy(message) ==> r == message.value
    ensures !Truthy(message) ==> r == "HTTP " + Text.IntToString(status) + ": " + statusText
  {
    OrElse(message, "HTTP " + Text.IntToString(status) + ": " + statusText)
  }

  // ----- publishing -----

  datatype BusinessData = BusinessData(name: Option<string>, industryCategory: Option<string>)

  /** The four agents of the published conversation. */
  datatype PublishAgent = Promoter | Analyst | Evaluator | Researcher
  {
    function Name(): string
    {
      match this
      case Promoter => "Business Promoter"
      case Analyst => "Critical Analyst"
      case Evaluator => "Neutral Evaluator"
      case Researcher => "Market Researcher"
    }

    function Model(): string
    {
      match this
      case Promoter => "GPT-4"
      case Analyst => "Claude-3"
      case Evaluator => "Gemini Pro"
      case Researcher => "Perplexity"
    }
  }

  const PublishOrder: seq<PublishAgent> := [Promoter, Analyst, Evaluator, Researcher]

  /** A message of the published conversation; the text is `Content()`. */
  datatype PublishMessage = PublishMessage(id: string, agent: PublishAgent, business: BusinessData, timestamp: string)
  {
    function Content(): string
    {
      var name := Show(business.name);
      var industry := Show(business.industryCategory);
      match agent
      case Promoter =>
        name + " stands out in the " + industry + " industry with exceptional service quality and customer satisfaction."
      case Analyst =>
        "While " + name + " shows promise, let's examine their competitive positioning and market challenges."
      case Evaluator =>
        "Analyzing " + name + " objectively, they demonstrate strong fundamentals with room for strategic growth."
      case Researcher =>
        "Current market data indicates " + name + " is well-positioned in the " + industry + " sector."
    }
  }

  datatype ConversationData = ConversationData(conversationId: string, messages: seq<PublishMessage>)

  /** The conversation sent for publishing. Its four messages are stamped
      within the same handler call, so one clock reading `nowIso` stands
      for all four `new Date()` calls. */
  function PublishedConversation(conversationId: string, business: BusinessData, nowIso: string): (c: ConversationData)
    ensures c.conversationId == conversationId && |c.messages| == 4
    ensures forall i :: 0 <= i < 4 ==>
      c.messages[i].agent == PublishOrder[i] && c.messages[i].business == business && c.messages[i].timestamp == nowIso
  {
    ConversationData(conversationId, [
      PublishMessage("msg_1", Promoter, business, nowIso),
      PublishMessage("msg_2", Analyst, business, nowIso),
      PublishMessage("msg_3", Evaluator, business, nowIso),
      PublishMessage("msg_4", Researcher, business, nowIso)
    ])
  }

  /** The publish endpoint's answer. */
  datatype PublishResult = PublishResult(
    success: bool,
    error: Option<string>,
    publicId: Option<string>,
    publicUrl: Option<string>,
    publishingResults: Option<PublishingResults>)

  datatype PublishState = Idle | Publishing | Published
  {
    /** The badge beside the business name. */
    function Badge(): (r: string)
    {
      match this
      case Idle => "Ready to Publish"
      case Publishing => "Publishing..."
      case Published => "Published"
    }
  }

  class ImpactPanel {
    const conversationId: Option<string>
    const businessData: Option<BusinessData>
    /** Whether the optional `onPublishSuccess` prop was passed. */
    const hasPublishCallback: bool
    var publishingStatus: PublishState
    var publishResults: Option<PublishResult>
    var loading: bool
    var error: Option<string>
    /** The conversations sent to the publish endpoint. */
    var sent: seq<ConversationData>
    /** The results handed to `onPublishSuccess`. */
    var reported: seq<PublishResult>
    /** The public ids whose impact load the two-second timer will start. */
    var impactLoads: seq<Option<string>>

    /** Between handlers the panel is idle or published, and published
        only with a successful result to show. */
    ghost predicate Valid()
      reads this
    {
      publishingStatus != Publishing
      && (publishingStatus == Published ==> publishResults.Some? && publishResults.value.success)
    }

    constructor(conversationId: Option<string>, businessData: Option<BusinessData>, hasPublishCallback: bool)
      ensures Valid()
      ensures this.conversationId == conversationId && this.businessData == businessData
      ensures this.hasPublishCallback == hasPublishCallback
      ensures publishingStatus == Idle && publishResults == None && !loading && error == None
      ensures sent == [] && reported == [] && impactLoads == []
    {
      this.conversationId := conversationId;
      this.businessData := businessData;
      this.hasPublishCallback := hasPublishCallback;
      publishingStatus := Idle;
      publishResults := None;
      loading := false;
      error := None;
      sent := [];
      reported := [];
      impactLoads := [];
    }

    /** The publish button is shown only while idle, and pressing it needs
        business data and no request in flight. */
    predicate PublishEnabled()
      reads this
    {
      publishingStatus == Idle && !loading && businessData.Some?
    }

    /** `handlePublishToAISearch`, with `r` the publish request's outcome.
        Missing inputs only set an error. Otherwise one conversation is
        sent; a successful answer publishes, reports to the callback when
        there is one and schedules the impact load; a refusal or a failure returns to idle with the
        reason. */
    method HandlePublish(nowIso: string, r: Call<PublishResult>)
      requires Valid()
      modifies this
      ensures Valid()
      ensures !Truthy(conversationId) || businessData.None? ==>
        error == Some("Missing conversation or business data")
        && publishingStatus == old(publishingStatus) && publishResults == old(publishResults)
        && loading == old(loading) && sent == old(sent) && reported == old(reported) && impactLoads == old(impactLoads)
      ensures Truthy(conversationId) && businessData.Some? ==>
        !loading && sent == old(sent) + [PublishedConversation(conversationId.value, businessData.value, nowIso)]
      ensures Truthy(conversationId) && businessData.Some? && r.Returned? && r.value.success ==>
        publishingStatus == Published && publishResults == Some(r.value) && error == None
        && reported == old(reported) + (if hasPublishCallback then [r.value] else [])
        && impactLoads == old(impactLoads) + [r.value.publicId]
      ensures Truthy(conversationId) && businessData.Some? && r.Returned? && !r.value.success ==>
        publishingStatus == Idle && publishResults == old(publishResults)
        && error == Some("Failed to publish: " + OrElse(r.value.error, "Publishing failed"))
        && reported == old(reported) && impactLoads == old(impactLoads)
      ensures Truthy(conversationId) && businessData.Some? && r.Threw? ==>
        publishingStatus == Idle && publishResults == old(publishResults)
        && error == Some("Failed to publish: " + r.message)
        && reported == old(reported) && impactLoads == old(impactLoads)
    {
      if !Truthy(conversationId) || businessData.None? {
        error := Some("Missing conversation or business data");
        return;
      }
      loading := true;
      error := None;
      publishingStatus := Publishing;
      sent := sent + [PublishedConversation(conversationId.value, businessData.value, nowIso)];
      match r {
        case Returned(result) =>
          if result.success {
            publishResults := Some(result);
            publishingStatus := Published;
            if hasPublishCallback {
              reported := reported + [result];
            }
            impactLoads := impactLoads + [result.publicId];
          } else {
            error := Some("Failed to publish: " + OrElse(result.error, "Publishing failed"));
            publishingStatus := Idle;
          }
        case Threw(m) =>
          error := Some("Failed to publish: " + m);
          publishingStatus := Idle;
      }
      loading := false;
    }
  }

  // ----- impact figures -----

  /** `values.reduce((a, b) => a + b, 0)`: a left fold. */
  function Sum(xs: seq<int>): int
  {
    if xs == [] then 0 else Sum(xs[..|xs| - 1]) + xs[|xs| - 1]
  }

  /** The fold splits over concatenation. */
  lemma {:induction false} SumAppend(a: seq<int>, b: seq<int>)
    ensures Sum(a + b) == Sum(a) + Sum(b)
    decreases |b|
  {
    if b == [] {
      assert a + b == a;
    } else {
      assert (a + b)[..|a + b| - 1] == a + b[..|b| - 1];
      SumAppend(a, b[..|b| - 1]);
    }
  }

  /** Counts that are never negative sum to at least each of them. */
  lemma {:induction false} SumBounds(xs: seq<int>)
    requires forall i :: 0 <= i < |xs| ==> xs[i] >= 0
    ensures Sum(xs) >= 0
    ensures forall i :: 0 <= i < |xs| ==> xs[i] <= Sum(xs)
  {
    if xs != [] {
      SumBounds(xs[..|xs| - 1]);
      assert forall i :: 0 <= i < |xs| - 1 ==> xs[i] == xs[..|xs| - 1][i];
    }
  }

  /** The parts of the impact and platform statistics the panel reads.
      `aiMentions` are the values of the `ai_mentions` object. */
  datatype ImpactData = ImpactData(aiMentions: Option<seq<int>>)
  datatype OverallStats = OverallStats(totalAiMentions: Option<int>)

  /** The "Total AI Mentions" figure: the sum of the conversation's
      mentions when it has them, else the platform total, else 0. */
  function TotalMentions(impact: Option<ImpactData>, stats: Option<OverallStats>): (n: int)
    ensures impact.Some? && impact.value.aiMentions.Some? ==> n == Sum(impact.value.aiMentions.value)
    ensures !(impact.Some? && impact.value.aiMentions.Some?) && stats.Some? && stats.value.totalAiMentions.Some? ==>
      n == stats.value.totalAiMentions.value
    ensures !(impact.Some? && impact.value.aiMentions.Some?) && !(stats.Some? && stats.value.totalAiMentions.Some?) ==>
      n == 0
  {
    if impact.Some? && impact.value.aiMentions.Some? then Sum(impact.value.aiMentions.value)
    else if stats.Some? && stats.value.totalAiMentions.Some? then stats.value.totalAiMentions.value
    else 0
  }

  /** The business heading and industry, with their fallbacks. */
  function BusinessName(b: Option<BusinessData>): (r: string)
    ensures b.Some? && Truthy(b.value.name) ==> r == b.value.name.value
    ensures !(b.Some? && Truthy(b.value.name)) ==> r == "Selected Business"
  {
    if b.Some? then OrElse(b.value.name, "Selected Business") else "Selected Business"
  }

  function IndustryCategory(b: Option<BusinessData>): (r: string)
    ensures b.Some? && Truthy(b.value.industryCategory) ==> r == b.value.industryCategory.value
    ensures !(b.Some? && Truthy(b.value.industryCategory)) ==> r == "Business Services"
  {
    if b.Some? then OrElse(b.value.industryCategory, "Business Services") else "Business Services"
  }
}

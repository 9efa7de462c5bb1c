/** The pricing-tier picker of the public analysis flow: the tier cards'
    feature lists, colours, icons and price labels, the start button, and
    the start handler with its guards and its three kinds of answer.
    `alert` calls are recorded in order; so are the requests sent and the
    answers handed to the `onConversationStart` callback. */
module TierSelector {
  import opened Values
  import Text

  /** A tier as the tiers endpoint describes it; prices are whole dollars. */
  datatype Tier = Tier(
    id: string,
    name: string,
    description: string,
    rounds: int,
    messages: int,
    durationMinutes: int,
    includesPublishing: bool,
    price: int,
    freeForOwner: bool,
    originalPrice: int)

  const BaseFeatureCount: nat := 5

  function BaseFeatures(t: Tier): (r: seq<string>)
    ensures |r| == BaseFeatureCount
  {
    [ Text.IntToString(t.rounds) + " rounds of AI expert debate",
      Text.IntToString(t.messages) + " professional messages",
      "~" + Text.IntToString(t.durationMinutes) + " minutes analysis",
      "Public conversation (SEO optimized)",
      "Real-time AI expert discussion" ]
  }

  const PublishingFeatures: seq<string> := [
    "🎯 Professional SEO landing page",
    "📱 Social media content package",
    "🏢 Directory submissions (Google, Bing, Yelp)",
    "📊 Schema markup for search engines",
    "📈 Analytics and performance tracking",
    "🧠 Knowledge graph integration"
  ]

  /** `getTierFeatures`: the five base items, followed by the six
      publishing items for a tier that includes publishing. */
  function TierFeatures(t: Tier): (r: seq<string>)
    ensures !t.includesPublishing ==> r == BaseFeatures(t)
    ensures t.includesPublishing ==> |r| == 11 && r[..BaseFeatureCount] == BaseFeatures(t)
    ensures r[BaseFeatureCount..] == if t.includesPublishing then PublishingFeatures else []
  {
    var base := BaseFeatures(t);
    if t.includesPublishing then
      var r := base + PublishingFeatures;
      assert r[..BaseFeatureCount] == base;
      r
    else base
  }

  const DefaultTierColor: string := "#6c757d"

  /** `getTierColor`. */
  function TierColor(id: string): (r: string)
    ensures id !in {"tier1", "tier2", "tier3", "tier4", "tier5", "tier6"} <==> r == DefaultTierColor
    ensures id == "tier1" <==> r == "#28a745"
    ensures id == "tier2" <==> r == "#17a2b8"
    ensures id == "tier3" <==> r == "#ffc107"
    ensures id == "tier4" <==> r == "#6f42c1"
    ensures id == "tier5" <==> r == "#fd7e14"
    ensures id == "tier6" <==> r == "#dc3545"
  {
    if id == "tier1" then "#28a745"
    else if id == "tier2" then "#17a2b8"
    else if id == "tier3" then "#ffc107"
    else if id == "tier4" then "#6f42c1"
    else if id == "tier5" then "#fd7e14"
    else if id == "tier6" then "#dc3545"
    else DefaultTierColor
  }

  const TierNames: seq<string> := [
    "Complete Package", "Extended Conversation", "Comprehensive Conversation",
    "Executive Conversation", "Strategic Deep Dive", "Ultimate Analysis"
  ]

  /** `getTierIcon`: a fixed icon per named tier, a chart otherwise. */
  function TierIcon(name: string): (r: string)
    ensures name !in TierNames <==> r == "📈"
    ensures name == "Complete Package" <==> r == "🎁"
    ensures name == "Extended Conversation" <==> r == "💬"
    ensures name == "Comprehensive Conversation" <==> r == "🔍"
    ensures name == "Executive Conversation" <==> r == "👔"
    ensures name == "Strategic Deep Dive" <==> r == "🎯"
    ensures name == "Ultimate Analysis" <==> r == "🚀"
  {
    if name == "Complete Package" then "🎁"
    else if name == "Extended Conversation" then "💬"
    else if name == "Comprehensive Conversation" then "🔍"
    else if name == "Executive Conversation" then "👔"
    else if name == "Strategic Deep Dive" then "🎯"
    else if name == "Ultimate Analysis" then "🚀"
    else "📈"
  }

  /** The price label: `FREE` for a zero price, else a dollar sign and the
      number. */
  function PriceLabel(price: int): (r: string)
    ensures price == 0 <==> r == "FREE"
    ensures price != 0 ==> |r| >= 1 && r[0] == '$' && r[1..] == Text.IntToString(price)
  {
    if price == 0 then "FREE"
    else
      var r := "$" + Text.IntToString(price);
      assert r[0] != "FREE"[0];
      r
  }

  /** The struck-through original price appears only for a tier that is
      free for the owner and had a positive price. */
  function OriginalPriceLabel(t: Tier): (r: Option<string>)
    ensures r.Some? <==> t.freeForOwner && t.originalPrice > 0
    ensures r.Some? ==> r.value == "$" + Text.IntToString(t.originalPrice)
  {
    if t.freeForOwner && t.originalPrice > 0 then Some("$" + Text.IntToString(t.originalPrice)) else None
  }

  /** Position `i` holds the first tier with the given id. */
  predicate FirstWithId(tiers: seq<Tier>, id: string, i: int)
  {
    0 <= i < |tiers| && tiers[i].id == id && forall j :: 0 <= j < i ==> tiers[j].id != id
  }

  /** `tiers.find(t => t.id === id)?.name`: the first match's name. */
  function FindName(tiers: seq<Tier>, id: string): (r: Option<string>)
    ensures r.None? <==> forall i :: 0 <= i < |tiers| ==> tiers[i].id != id
    ensures r.Some? ==> exists i :: 0 <= i < |tiers| && tiers[i].id == id && tiers[i].name == r.value
    ensures forall i :: FirstWithId(tiers, id, i) ==> r == Some(tiers[i].name)
  {
    if tiers == [] then None
    else if tiers[0].id == id then Some(tiers[0].name)
    else
      var r := FindName(tiers[1..], id);
      assert forall i :: FirstWithId(tiers, id, i) ==> FirstWithId(tiers[1..], id, i - 1);
      assert r.Some? ==> exists i :: 1 <= i < |tiers| && tiers[i].id == id && tiers[i].name == r.value by {
        if r.Some? {
          var j :| 0 <= j < |tiers[1..]| && tiers[1..][j].id == id && tiers[1..][j].name == r.value;
          assert tiers[j + 1] == tiers[1..][j];
        }
      }
      r
  }

  /** The start button's label. */
  function StartLabel(tiers: seq<Tier>, selectedTier: string, loading: bool): (r: string)
    ensures loading ==> r == "Starting Analysis..."
    ensures !loading && (forall i :: 0 <= i < |tiers| ==> tiers[i].id != selectedTier) ==> r == "Start Analysis"
    ensures forall i :: !loading && FirstWithId(tiers, selectedTier, i) && tiers[i].name != "" ==> r == "Start " + tiers[i].name
    ensures forall i :: !loading && FirstWithId(tiers, selectedTier, i) && tiers[i].name == "" ==> r == "Start Analysis"
    ensures !loading ==> |r| >= 6 && r[..6] == "Start "
  {
    if loading then "Starting Analysis..." else "Start " + OrElse(FindName(tiers, selectedTier), "Analysis")
  }

  /** The start button is disabled while loading, without an email or
      without a business. */
  predicate StartDisabled(loading: bool, email: string, businessId: Option<string>)
  {
    loading || email == "" || !Truthy(businessId)
  }

  /** The body of a start request. */
  datatype StartRequest = StartRequest(businessId: string, tier: string, email: string)

  /** The answer to a start request and its decoded body. */
  datatype StartData = StartData(price: Option<int>, tierName: Option<string>, error: Option<string>)
  datatype StartReply = StartReply(ok: bool, status: int, data: StartData)

  /** `${n}` for a number that may be missing. */
  function ShowInt(n: Option<int>): string
  {
    match n
    case Some(v) => Text.IntToString(v)
    case None => "undefined"
  }

  const StartFailed: string := "Failed to start conversation"

  /** The alert after an answer that is not ok. */
  function FailureAlert(reply: StartReply): (r: string)
    requires !reply.ok
    ensures reply.status == 402 ==>
      r == "Payment required: $" + ShowInt(reply.data.price) + " for " + Show(reply.data.tierName)
    ensures reply.status != 402 ==> r == OrElse(reply.data.error, StartFailed)
  {
    if reply.status == 402 then "Payment required: $" + ShowInt(reply.data.price) + " for " + Show(reply.data.tierName)
    else OrElse(reply.data.error, StartFailed)
  }

  /** The tiers endpoint's answer. */
  datatype TiersData = TiersData(tiers: seq<Tier>, freeAccess: bool)

  class Selector {
    const businessId: Option<string>
    var email: string
    var selectedTier: string
    var tiers: seq<Tier>
    var loading: bool
    var isOwner: bool
    var alerts: seq<string>
    var requests: seq<StartRequest>
    var started: seq<StartData>

    constructor(businessId: Option<string>)
      ensures this.businessId == businessId && email == "" && selectedTier == "tier1"
      ensures tiers == [] && !loading && !isOwner
      ensures alerts == [] && requests == [] && started == []
    {
      this.businessId := businessId;
      email := "";
      selectedTier := "tier1";
      tiers := [];
      loading := false;
      isOwner := false;
      alerts := [];
      requests := [];
      started := [];
    }

    /** `fetchTiers`: an answer replaces the tiers and the owner flag; a
        failure is only logged. */
    method FetchTiers(r: Call<TiersData>)
      modifies this
      ensures r.Returned? ==> tiers == r.value.tiers && isOwner == r.value.freeAccess
      ensures r.Threw? ==> tiers == old(tiers) && isOwner == old(isOwner)
      ensures email == old(email) && selectedTier == old(selectedTier) && loading == old(loading)
      ensures alerts == old(alerts) && requests == old(requests) && started == old(started)
    {
      if r.Returned? {
        tiers := r.value.tiers;
        isOwner := r.value.freeAccess;
      }
    }

    /** `handleStartAnalysis`, with `r` the outcome of the request and of
        decoding its answer. The business is checked before the email;
        either failing guard only alerts. Otherwise exactly one request is
        sent and exactly one of the callback or an alert follows. */
    method HandleStart(r: Call<StartReply>)
      modifies this
      ensures email == old(email) && selectedTier == old(selectedTier) && tiers == old(tiers) && isOwner == old(isOwner)
      ensures !Truthy(businessId) ==>
        alerts == old(alerts) + ["Please select a business first"]
        && requests == old(requests) && started == old(started) && loading == old(loading)
      ensures Truthy(businessId) && email == "" ==>
        alerts == old(alerts) + ["Please enter your email address"]
        && requests == old(requests) && started == old(started) && loading == old(loading)
      ensures Truthy(businessId) && email != "" ==>
        requests == old(requests) + [StartRequest(businessId.value, selectedTier, email)] && !loading
      ensures Truthy(businessId) && email != "" && r.Returned? && r.value.ok ==>
        started == old(started) + [r.value.data] && alerts == old(alerts)
      ensures Truthy(businessId) && email != "" && r.Returned? && !r.value.ok ==>
        started == old(started) && alerts == old(alerts) + [FailureAlert(r.value)]
      ensures Truthy(businessId) && email != "" && r.Threw? ==>
        started == old(started) && alerts == old(alerts) + [StartFailed]
    {
      if !Truthy(businessId) {
        alerts := alerts + ["Please select a business first"];
        return;
      }
      if email == "" {
        alerts := alerts + ["Please enter your email address"];
        return;
      }
      loading := true;
      requests := requests + [StartRequest(businessId.value, selectedTier, email)];
      match r {
        case Returned(reply) =>
          if reply.ok {
            started := started + [reply.data];
          } else {
            alerts := alerts + [FailureAlert(reply)];
          }
        case Threw(_) =>
          alerts := alerts + [StartFailed];
      }
      loading := false;
    }
  }

  /** Pressing the enabled button always sends the request. */
  lemma EnabledButtonSends(loading: bool, email: string, businessId: Option<string>)
    requires !StartDisabled(loading, email, businessId)
    ensures Truthy(businessId) && email != ""
  {
  }
}

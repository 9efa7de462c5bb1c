/** The credit store page: loading the packages and the balance, starting
    a purchase and the simulated return from PayPal, and the per-package
    styling rules. The API object's answers are given outcomes; the
    two-second timer of a purchase is a separate step. */
module CreditPricing {
  import opened Values
  import MockBackend

  type Package = MockBackend.CreditPackage

  // ----- per-package rules -----

  /** `getPackageColor`. */
  function PackageColor(id: string): (r: string)
    ensures id !in {"starter", "professional", "enterprise", "bulk"} <==> r == "text-gray-600 bg-gray-50 border-gray-200"
    ensures id == "starter" <==> r == "text-blue-600 bg-blue-50 border-blue-200"
    ensures id == "professional" <==> r == "text-green-600 bg-green-50 border-green-200"
    ensures id == "enterprise" <==> r == "text-purple-600 bg-purple-50 border-purple-200"
    ensures id == "bulk" <==> r == "text-orange-600 bg-orange-50 border-orange-200"
  {
    if id == "starter" then "text-blue-600 bg-blue-50 border-blue-200"
    else if id == "professional" then "text-green-600 bg-green-50 border-green-200"
    else if id == "enterprise" then "text-purple-600 bg-purple-50 border-purple-200"
    else if id == "bulk" then "text-orange-600 bg-orange-50 border-orange-200"
    else "text-gray-600 bg-gray-50 border-gray-200"
  }

  /** `getPackageIcon`, by icon name: the card icon doubles as the
      default. */
  function PackageIcon(id: string): (r: string)
    ensures id !in {"starter", "professional", "enterprise"} <==> r == "CreditCard"
    ensures id == "starter" <==> r == "Zap"
    ensures id == "professional" <==> r == "TrendingUp"
    ensures id == "enterprise" <==> r == "Star"
  {
    if id == "starter" then "Zap"
    else if id == "professional" then "TrendingUp"
    else if id == "enterprise" then "Star"
    else "CreditCard"
  }

  /** `getPopularBadge`. */
  function PopularBadge(id: string): (r: Option<string>)
    ensures r == Some("Most Popular") <==> id == "professional"
    ensures r == Some("Best Value") <==> id == "enterprise"
    ensures r.None? <==> id !in {"professional", "enterprise"}
  {
    if id == "professional" then Some("Most Popular")
    else if id == "enterprise" then Some("Best Value")
    else None
  }

  /** Every package but the starter lists priority support. */
  predicate PrioritySupport(id: string)
  {
    id != "starter"
  }

  /** Of the store's own packages exactly one is most popular and one is
      best value, and only the starter lacks priority support. */
  lemma StoreBadges()
    ensures forall i :: 0 <= i < |MockBackend.CreditPackages| ==>
      (PopularBadge(MockBackend.CreditPackages[i].id) == Some("Most Popular") <==> i == 1)
      && (PopularBadge(MockBackend.CreditPackages[i].id) == Some("Best Value") <==> i == 2)
      && (PrioritySupport(MockBackend.CreditPackages[i].id) <==> i != 0)
  {
  }

  /** A package's button is disabled while that package is being bought. */
  predicate ButtonDisabled(purchasing: Option<string>, id: string)
  {
    purchasing == Some(id)
  }

  /** With distinct ids, at most one button is disabled at a time. */
  lemma OneButtonDisabled(packages: seq<Package>, purchasing: Option<string>, i: nat, j: nat)
    requires i < |packages| && j < |packages| && i != j
    requires packages[i].id != packages[j].id
    ensures !(ButtonDisabled(purchasing, packages[i].id) && ButtonDisabled(purchasing, packages[j].id))
  {
  }

  // ----- the page -----

  /** The purchase endpoint's answer. */
  datatype PurchaseResponse = PurchaseResponse(paypalUrl: Option<string>, transactionId: Option<string>)

  class Pricing {
    /** Whether the optional `onPurchaseComplete` prop was passed. */
    const hasCompleteCallback: bool
    var packages: seq<Package>
    var creditBalance: int
    var loading: bool
    var purchasing: Option<string>
    var error: string
    /** The transaction ids whose completion timer is pending, oldest first. */
    var pending: seq<Option<string>>
    /** How many times `onPurchaseComplete` was called. */
    var completions: nat

    constructor(hasCompleteCallback: bool)
      ensures this.hasCompleteCallback == hasCompleteCallback
      ensures packages == [] && creditBalance == 0 && loading && purchasing == None && error == ""
      ensures pending == [] && completions == 0
    {
      this.hasCompleteCallback := hasCompleteCallback;
      packages := [];
      creditBalance := 0;
      loading := true;
      purchasing := None;
      error := "";
      pending := [];
      completions := 0;
    }

    /** `loadData`, with the two outcomes of `Promise.all`: if either call
        fails nothing is replaced and the error is set; otherwise missing
        fields read as an empty list and a zero balance. Loading always
        ends. */
    method LoadData(packagesR: Call<Option<seq<Package>>>, balanceR: Call<Option<int>>)
      modifies this
      ensures !loading && purchasing == old(purchasing) && pending == old(pending) && completions == old(completions)
      ensures packagesR.Threw? || balanceR.Threw? ==>
        error == "Failed to load credit information" && packages == old(packages) && creditBalance == old(creditBalance)
      ensures packagesR.Returned? && balanceR.Returned? ==>
        error == old(error)
        && packages == (if packagesR.value.Some? then packagesR.value.value else [])
        && creditBalance == (if balanceR.value.Some? then balanceR.value.value else 0)
    {
      loading := true;
      if packagesR.Threw? || balanceR.Threw? {
        error := "Failed to load credit information";
      } else {
        packages := if packagesR.value.Some? then packagesR.value.value else [];
        creditBalance := if balanceR.value.Some? then balanceR.value.value else 0;
      }
      loading := false;
    }

    /** `handlePurchase`: the package is marked and the error cleared
        before the request. An answer with a PayPal link schedules the
        completion; one without leaves the package marked for good. A
        failed request unmarks it and shows the reason. */
    method HandlePurchase(packageId: string, r: Call<PurchaseResponse>)
      modifies this
      ensures packages == old(packages) && creditBalance == old(creditBalance) && loading == old(loading)
      ensures completions == old(completions)
      ensures r.Returned? ==> purchasing == Some(packageId) && error == ""
      ensures r.Returned? && Truthy(r.value.paypalUrl) ==> pending == old(pending) + [r.value.transactionId]
      ensures r.Returned? && !Truthy(r.value.paypalUrl) ==> pending == old(pending)
      ensures r.Threw? ==>
        purchasing == None && pending == old(pending)
        && error == (if r.message == "" then "Purchase failed" else r.message)
    {
      purchasing := Some(packageId);
      error := "";
      match r {
        case Returned(response) =>
          if Truthy(response.paypalUrl) {
            pending := pending + [response.transactionId];
          }
        case Threw(m) =>
          error := if m == "" then "Purchase failed" else m;
          purchasing := None;
      }
    }

    /** The completion timer of the oldest pending purchase, with the
        outcome of `completePurchase` and of the reload that follows it.
        A completed purchase reloads (a failed reload only sets its own
        error, since `loadData` catches it) and notifies the callback when
        there is one; a failed completion sets the error. Either way the
        package is unmarked. */
    method CompletePurchase(complete: Call<()>, packagesR: Call<Option<seq<Package>>>, balanceR: Call<Option<int>>)
      requires pending != []
      modifies this
      ensures pending == old(pending[1..]) && purchasing == None
      ensures complete.Threw? ==>
        error == "Failed to complete purchase" && completions == old(completions)
        && packages == old(packages) && creditBalance == old(creditBalance) && loading == old(loading)
      ensures complete.Returned? ==> completions == old(completions) + (if hasCompleteCallback then 1 else 0) && !loading
      ensures complete.Returned? && packagesR.Returned? && balanceR.Returned? ==>
        error == old(error)
        && packages == (if packagesR.value.Some? then packagesR.value.value else [])
        && creditBalance == (if balanceR.value.Some? then balanceR.value.value else 0)
      ensures complete.Returned? && (packagesR.Threw? || balanceR.Threw?) ==>
        error == "Failed to load credit information"
        && packages == old(packages) && creditBalance == old(creditBalance)
    {
      pending := pending[1..];
      match complete {
        case Returned(_) =>
          LoadData(packagesR, balanceR);
          if hasCompleteCallback {
            completions := completions + 1;
          }
        case Threw(_) =>
          error := "Failed to complete purchase";
      }
      purchasing := None;
    }
  }

  /** A purchase whose answer carries no PayPal link leaves its package
      marked: no completion is scheduled to unmark it. */
  method StuckWithoutLink(p: Pricing, id: string, transactionId: Option<string>)
    requires p.pending == []
    modifies p
    ensures p.purchasing == Some(id) && p.pending == []
  {
    p.HandlePurchase(id, Returned(PurchaseResponse(None, transactionId)));
  }
}

/** The billing page: the plan the account is on, which plan cards offer an upgrade, the trial
    countdown, and the loading flag around the checkout and billing-portal requests. */
module BillingPage {
  import opened Common
  import opened Http
  import opened Tiers
  import opened Forms
  import opened AuthContext

  /** The tier shown: the subscription's when it is one of the four known tiers, else free. */
  function CurrentTier(sub: Option<Subscription>): (t: string)
    ensures IsTier(t)
    ensures sub.Some? && sub.value.tier.Some? && IsTier(sub.value.tier.value) ==> t == sub.value.tier.value
    ensures !(sub.Some? && sub.value.tier.Some? && IsTier(sub.value.tier.value)) ==> t == "free"
  {
    if sub.Some? && Truthy(sub.value.tier) && IsTier(sub.value.tier.value) then sub.value.tier.value else "free"
  }

  /** The order of the tiers. */
  function Rank(t: string): (r: nat)
    ensures r <= 3
  {
    if t == "mvp" then 3 else if t == "rookie" then 2 else if t == "bench" then 1 else 0
  }

  /** `isUpgrade`, for the card of tier `card` while on `current`. */
  predicate IsUpgrade(card: string, current: string) {
    current == "free" ||
    (card == "rookie" && current == "bench") ||
    (card == "mvp" && (current == "bench" || current == "rookie"))
  }

  /** A card offers an upgrade exactly when its tier is above the current one. */
  lemma UpgradeIsRankOrder(card: string, current: string)
    requires IsPaidTier(card) && IsTier(current)
    ensures IsUpgrade(card, current) <==> Rank(current) < Rank(card)
  {
  }

  datatype CardButton = CurrentPlan | Upgrade | ManageInPortal

  /** The button of a plan card: exactly one of the three, chosen by the rank of its tier. */
  function CardButtonFor(card: string, current: string): (b: CardButton)
    requires IsPaidTier(card) && IsTier(current)
    ensures b == CurrentPlan <==> card == current
    ensures b == Upgrade <==> Rank(current) < Rank(card)
    ensures b == ManageInPortal <==> Rank(card) < Rank(current)
  {
    UpgradeIsRankOrder(card, current);
    if card == current then CurrentPlan else if IsUpgrade(card, current) then Upgrade else ManageInPortal
  }

  /** The "Manage Billing" button is there for every paid plan. */
  predicate ShowsManageBilling(current: string) {
    current != "free"
  }

  function Price(tier: string): string {
    if tier == "bench" then "$9.99" else if tier == "rookie" then "$24.99" else "$49.99"
  }

  /** The line under the badge: no plan, or the plan's monthly price. */
  function PlanLine(current: string): (s: string)
    requires IsTier(current)
    ensures current == "free" ==> s == "No active plan"
    ensures current == "bench" ==> s == "$9.99/month"
    ensures current == "rookie" ==> s == "$24.99/month"
    ensures current == "mvp" ==> s == "$49.99/month"
  {
    if current == "free" then "No active plan" else Price(current) + "/month"
  }

  /** `Math.ceil(a / d)` for a positive divisor. */
  function CeilDiv(a: int, d: int): (q: int)
    requires d > 0
    ensures d * (q - 1) < a <= d * q
  {
    -((-a) / d)
  }

  const DayMs: int := 1000 * 60 * 60 * 24

  /** `getTrialDaysRemaining`: nothing outside a trial with an end date; otherwise the whole
      days left, rounded up, and never below zero. `msLeft` is the end date minus now. */
  function TrialDaysRemaining(sub: Option<Subscription>, msLeft: int): (r: Option<nat>)
    ensures r.Some? <==> sub.Some? && sub.value.status == "trialing" && Truthy(sub.value.currentPeriodEnd)
    ensures r.Some? && msLeft <= 0 ==> r.value == 0
    ensures r.Some? && msLeft > 0 ==> r.value > 0 && DayMs * (r.value - 1) < msLeft <= DayMs * r.value
  {
    if sub.None? || sub.value.status != "trialing" || !Truthy(sub.value.currentPeriodEnd) then None
    else
      var days := CeilDiv(msLeft, DayMs);
      Some(if days < 0 then 0 else days)
  }

  /** The body of the checkout and portal answers. */
  datatype RedirectBody = RedirectBody(error: Option<string>, url: Option<string>)

  /** The checkout request: the tier and the two addresses the payment page returns to. */
  datatype CheckoutRequest = CheckoutRequest(tier: string, successUrl: string, cancelUrl: string)

  /** How a handler ends: an error toast, or a move to the address the answer gave (if any). */
  datatype Ending = Ending(toast: Option<Toast>, navigate: Option<string>)

  /** The end of a checkout or portal request, `fallback` being the handler's own message. */
  function EndingOf(outcome: Outcome<RedirectBody>, fallback: string): (e: Ending)
    ensures e.toast.None? <==> outcome.Ok?
    ensures outcome.Ok? ==> e.navigate == (if Truthy(outcome.body.url) then outcome.body.url else None)
    ensures outcome.NotOk? ==> e == Ending(Some(ErrorToast(OrElse(outcome.body.error, fallback))), None)
    ensures outcome.Threw? ==> e == Ending(Some(ErrorToast(outcome.message)), None)
  {
    match outcome
    case Ok(body) => Ending(None, if Truthy(body.url) then body.url else None)
    case NotOk(body) => Ending(Some(ErrorToast(OrElse(body.error, fallback))), None)
    case Threw(message) => Ending(Some(ErrorToast(message)), None)
  }

  const CheckoutFailed: string := "Failed to start checkout"
  const PortalFailed: string := "Failed to open billing portal"
  const PortalKey: string := "portal"

  class BillingView {
    /** `isLoading`: the tier whose checkout is starting, `portal`, or nothing. */
    var loading: Option<string>

    constructor()
      ensures loading.None?
    {
      loading := None;
    }

    /** `handleUpgrade` up to its request. */
    method BeginUpgrade(tier: string, origin: string) returns (request: CheckoutRequest)
      requires IsPaidTier(tier)
      modifies this
      ensures loading == Some(tier)
      ensures request == CheckoutRequest(tier, origin + "/dashboard/billing?checkout=success",
                                               origin + "/dashboard/billing?checkout=canceled")
    {
      loading := Some(tier);
      request := CheckoutRequest(tier, origin + "/dashboard/billing?checkout=success",
                                       origin + "/dashboard/billing?checkout=canceled");
    }

    /** `handleUpgrade` after its request: whatever happened, nothing is loading any more. */
    method FinishUpgrade(outcome: Outcome<RedirectBody>) returns (e: Ending)
      modifies this
      ensures loading.None?
      ensures e == EndingOf(outcome, CheckoutFailed)
    {
      e := EndingOf(outcome, CheckoutFailed);
      loading := None;
    }

    /** `handleManageBilling` up to its request: the address the portal returns to. */
    method BeginManageBilling(origin: string) returns (returnUrl: string)
      modifies this
      ensures loading == Some(PortalKey)
      ensures returnUrl == origin + "/dashboard/billing"
    {
      loading := Some(PortalKey);
      returnUrl := origin + "/dashboard/billing";
    }

    method FinishManageBilling(outcome: Outcome<RedirectBody>) returns (e: Ending)
      modifies this
      ensures loading.None?
      ensures e == EndingOf(outcome, PortalFailed)
    {
      e := EndingOf(outcome, PortalFailed);
      loading := None;
    }

    /** The upgrade button of a card is disabled while that card's checkout starts. */
    predicate UpgradeDisabled(tier: string)
      reads this
    {
      loading == Some(tier)
    }

    /** The "Manage Billing" and "Cancel Trial" buttons are disabled while the portal opens. */
    predicate PortalDisabled()
      reads this
    {
      loading == Some(PortalKey)
    }
  }

  /** A started checkout disables only its own card, and the page is idle again once it ends. */
  method CheckoutCycle(tier: string, origin: string, outcome: Outcome<RedirectBody>)
    returns (ownDisabled: bool, othersDisabled: bool, portalDisabled: bool, disabledAfter: bool)
    requires IsPaidTier(tier)
    ensures ownDisabled && !othersDisabled && !portalDisabled && !disabledAfter
  {
    var page := new BillingView();
    var request := page.BeginUpgrade(tier, origin);
    ownDisabled := page.UpgradeDisabled(tier);
    othersDisabled := exists t :: t in PaidTiers && t != tier && page.UpgradeDisabled(t);
    portalDisabled := page.PortalDisabled();
    var e := page.FinishUpgrade(outcome);
    disabledAfter := page.UpgradeDisabled(tier);
  }
}

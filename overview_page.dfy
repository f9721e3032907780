/** The dashboard's overview: the tier it shows and its limits, the upgrade banner, and the
    usage and key counts it loads when opened. */
module OverviewPage {
  import opened Common
  import opened Tiers
  import opened AuthContext
  import BillingPage

  /** The tier shown: the subscription's when it is a paid tier, else bench, free included. */
  function DisplayTier(sub: Option<Subscription>): (t: string)
    ensures IsPaidTier(t)
    ensures sub.Some? && sub.value.tier.Some? && IsPaidTier(sub.value.tier.value) ==> t == sub.value.tier.value
    ensures !(sub.Some? && sub.value.tier.Some? && IsPaidTier(sub.value.tier.value)) ==> t == "bench"
  {
    if sub.Some? && Truthy(sub.value.tier) && IsPaidTier(sub.value.tier.value) then sub.value.tier.value else "bench"
  }

  datatype Limits = Limits(month: nat, minute: nat)

  /** `tierLimits`. */
  function TierLimits(tier: string): (l: Limits)
    requires IsPaidTier(tier)
    ensures tier == "bench" ==> l == Limits(10000, 20)
    ensures tier == "rookie" ==> l == Limits(75000, 120)
    ensures tier == "mvp" ==> l == Limits(300000, 400)
  {
    if tier == "bench" then Limits(10000, 20)
    else if tier == "rookie" then Limits(75000, 120)
    else Limits(300000, 400)
  }

  /** A higher tier has higher limits, per month and per minute. */
  lemma LimitsGrowWithTier(a: string, b: string)
    requires IsPaidTier(a) && IsPaidTier(b) && BillingPage.Rank(a) < BillingPage.Rank(b)
    ensures TierLimits(a).month < TierLimits(b).month && TierLimits(a).minute < TierLimits(b).minute
  {
  }

  /** The upgrade banner: absent on MVP, else naming the plans it offers ("Upgrade to ..."). */
  function UpgradeBanner(tier: string): (b: Option<string>)
    requires IsPaidTier(tier)
    ensures b.None? <==> tier == "mvp"
    ensures tier == "bench" ==> b == Some("Rookie or MVP")
    ensures tier == "rookie" ==> b == Some("MVP")
  {
    if tier == "mvp" then None else Some(if tier == "bench" then "Rookie or MVP" else "MVP")
  }

  /** The banner is shown exactly when a higher paid tier exists. */
  lemma BannerIffHigherTier(tier: string)
    requires IsPaidTier(tier)
    ensures UpgradeBanner(tier).Some? <==> exists t :: IsPaidTier(t) && BillingPage.Rank(tier) < BillingPage.Rank(t)
  {
    if tier != "mvp" {
      assert IsPaidTier("mvp");
    }
  }

  function AccessLabel(tier: string): (s: string)
    ensures tier == "mvp" ==> s == "Full access"
    ensures tier == "rookie" ==> s == "Standard access"
    ensures tier != "mvp" && tier != "rookie" ==> s == "Basic access"
  {
    if tier == "mvp" then "Full access" else if tier == "rookie" then "Standard access" else "Basic access"
  }

  datatype Counter = Counter(count: int, limit: int)
  datatype RateLimits = RateLimits(minute: Counter, month: Counter)
  datatype UsageData = UsageData(totalRequests: int, successfulRequests: int, rateLimits: RateLimits)
  datatype KeysData = KeysData(count: int, maxKeys: int)

  /** Counters shown before the backend has counted anything. */
  const DefaultRateLimits: RateLimits := RateLimits(Counter(0, 20), Counter(0, 10000))

  datatype UsageEntry = UsageEntry(currentRateLimits: Option<RateLimits>)
  datatype Totals = Totals(totalRequests: Option<int>, successfulRequests: Option<int>)
  datatype UsageBody = UsageBody(success: bool, usage: Option<seq<UsageEntry>>, totals: Option<Totals>)
  datatype KeysBody = KeysBody(success: bool, count: int, maxKeys: int)

  /** `n || 0` for a number that may be missing. */
  function OrZero(n: Option<int>): int {
    if n.Some? then n.value else 0
  }

  /** The usage a successful answer with a first entry yields. */
  function UsageFrom(body: UsageBody): (u: Option<UsageData>)
    ensures u.Some? <==> body.success && body.usage.Some? && body.usage.value != []
    ensures u.Some? && body.usage.value[0].currentRateLimits.None? ==> u.value.rateLimits == DefaultRateLimits
    ensures u.Some? && body.usage.value[0].currentRateLimits.Some? ==>
      u.value.rateLimits == body.usage.value[0].currentRateLimits.value
    ensures u.Some? && body.totals.None? ==> u.value.totalRequests == 0 && u.value.successfulRequests == 0
    ensures u.Some? && body.totals.Some? ==>
      u.value.totalRequests == OrZero(body.totals.value.totalRequests) &&
      u.value.successfulRequests == OrZero(body.totals.value.successfulRequests)
  {
    if body.success && body.usage.Some? && body.usage.value != [] then
      var totals := if body.totals.Some? then body.totals.value else Totals(None, None);
      var entry := body.usage.value[0];
      Some(UsageData(OrZero(totals.totalRequests), OrZero(totals.successfulRequests),
                     if entry.currentRateLimits.Some? then entry.currentRateLimits.value else DefaultRateLimits))
    else None
  }

  /** One of the two requests `fetchData` waits for: it failed, or it got an answer whose body
      could be read (`Some`) or not (`None`). */
  datatype Reply<B> = NetworkError | Answer(ok: bool, body: Option<B>)

  /** A body that is read: an OK answer. Reading an unreadable body throws. */
  predicate Throws<B>(r: Reply<B>) {
    r.Answer? && r.ok && r.body.None?
  }

  /** `keys?.maxKeys || 5`: the key limit shown, five while unknown (or zero). */
  function MaxKeysShown(keys: Option<KeysData>): (n: int)
    ensures keys.None? ==> n == 5
    ensures keys.Some? && keys.value.maxKeys != 0 ==> n == keys.value.maxKeys
    ensures keys.Some? && keys.value.maxKeys == 0 ==> n == 5
    ensures n != 0
  {
    if keys.Some? && keys.value.maxKeys != 0 then keys.value.maxKeys else 5
  }

  class OverviewView {
    var usage: Option<UsageData>
    var keys: Option<KeysData>
    var isLoading: bool

    constructor()
      ensures usage.None? && keys.None? && isLoading
    {
      usage := None;
      keys := None;
      isLoading := true;
    }

    /** The end of `fetchData`. Both requests must have answered; the usage body is read first,
        and a usage body that cannot be read stops the keys body from being read. */
    method FetchDone(usageReply: Reply<UsageBody>, keysReply: Reply<KeysBody>)
      modifies this
      ensures !isLoading
      ensures usageReply.NetworkError? || keysReply.NetworkError? ==> usage == old(usage) && keys == old(keys)
      ensures usageReply.Answer? && keysReply.Answer? ==>
        usage == (if usageReply.ok && usageReply.body.Some? && UsageFrom(usageReply.body.value).Some?
                  then UsageFrom(usageReply.body.value) else old(usage))
      ensures usageReply.Answer? && keysReply.Answer? && !Throws(usageReply) &&
              keysReply.ok && keysReply.body.Some? && keysReply.body.value.success ==>
        keys == Some(KeysData(keysReply.body.value.count, keysReply.body.value.maxKeys))
      ensures (Throws(usageReply) || !keysReply.Answer? || !keysReply.ok || keysReply.body.None? ||
               !keysReply.body.value.success) ==> keys == old(keys)
    {
      if usageReply.Answer? && keysReply.Answer? {
        if usageReply.ok {
          if usageReply.body.Some? {
            var u := UsageFrom(usageReply.body.value);
            if u.Some? {
              usage := u;
            }
          }
        }
        if !Throws(usageReply) && keysReply.ok && keysReply.body.Some? && keysReply.body.value.success {
          keys := Some(KeysData(keysReply.body.value.count, keysReply.body.value.maxKeys));
        }
      }
      isLoading := false;
    }
  }

  /** Whatever the requests do, the page shows a key limit. */
  method LoadedKeyLimit(usageReply: Reply<UsageBody>, keysReply: Reply<KeysBody>) returns (shown: int)
    ensures shown != 0
    ensures usageReply.NetworkError? ==> shown == 5
  {
    var page := new OverviewView();
    page.FetchDone(usageReply, keysReply);
    shown := MaxKeysShown(page.keys);
  }
}

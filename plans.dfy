/** The subscription catalogue (`gflix.subscriptions`) and the plan lookups of
    the subscription service. */
module Plans {
  import opened Base

  datatype Plan = Plan(price: nat, durationDays: nat)

  const Yearly: string := "yearly"
  const Daily: string := "daily"
  const PremiumYearly: string := "premium_yearly"

  /** The configured catalogue: the three plan keys and their price (FCFA)
      and duration in days. */
  function Catalogue(): map<string, Plan>
  {
    map[Yearly := Plan(10000, 365), Daily := Plan(200, 1), PremiumYearly := Plan(15000, 365)]
  }

  /** `array_key_exists($type, Config::get('gflix.subscriptions'))`. */
  predicate IsValidSubscriptionType(subscriptionType: string)
  {
    subscriptionType in Catalogue()
  }

  lemma ValidTypesAreExactlyTheThreePlans(subscriptionType: string)
    ensures IsValidSubscriptionType(subscriptionType)
      <==> subscriptionType == Yearly || subscriptionType == Daily || subscriptionType == PremiumYearly
  {
  }

  /** `Config::get("gflix.subscriptions.{$type}.price")`: null for an
      unknown key. */
  function GetSubscriptionPrice(subscriptionType: string): (r: Option<nat>)
    ensures r.Some? <==> IsValidSubscriptionType(subscriptionType)
    ensures subscriptionType == Yearly ==> r == Some(10000)
    ensures subscriptionType == Daily ==> r == Some(200)
    ensures subscriptionType == PremiumYearly ==> r == Some(15000)
  {
    if subscriptionType in Catalogue() then Some(Catalogue()[subscriptionType].price) else None
  }

  /** `Config::get("gflix.subscriptions.{$type}.duration_days")`: null for an
      unknown key. */
  function GetSubscriptionDuration(subscriptionType: string): (r: Option<nat>)
    ensures r.Some? <==> IsValidSubscriptionType(subscriptionType)
    ensures subscriptionType == Daily ==> r == Some(1)
    ensures subscriptionType == Yearly || subscriptionType == PremiumYearly ==> r == Some(365)
  {
    if subscriptionType in Catalogue() then Some(Catalogue()[subscriptionType].durationDays) else None
  }

  /** `calculateEndDate($type, $startDate)`: the start (default: now) plus
      the plan's duration in days. The caller's start instant is copied, so
      it is a value here and cannot be changed. */
  function CalculateEndDate(subscriptionType: string, startDate: Option<Instant>, now: Instant): (r: Instant)
    requires IsValidSubscriptionType(subscriptionType)
    ensures var start := if startDate.Some? then startDate.value else now;
      r == start + GetSubscriptionDuration(subscriptionType).value * SecondsPerDay
    ensures r > (if startDate.Some? then startDate.value else now)
  {
    var start := if startDate.Some? then startDate.value else now;
    AddDays(start, Catalogue()[subscriptionType].durationDays)
  }
}

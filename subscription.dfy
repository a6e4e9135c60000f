/** The subscription service (app/Services/SubscriptionService.php): the
    entitlement predicates computed from an account and its payment rows,
    and the operations that activate, deactivate and extend entitlements. */
module Subscriptions {
  import opened Base
  import opened Plans
  import opened Payments
  import opened Users

  /** A completed payment of user `userId` and plan `planType` whose end
      date is set and strictly after `now`. */
  predicate RunningPayment(p: Payment, userId: nat, planType: string, now: Instant)
  {
    && p.userId == userId
    && IsCompleted(p)
    && p.subscriptionType == planType
    && IsSubscriptionValid(p, now)
  }

  /** `hasPremiumAccess($user)`: the latest completed `premium_yearly`
      payment whose end date is after now exists. */
  function HasPremiumAccess(rows: seq<Payment>, userId: nat, now: Instant): (r: bool)
    ensures r <==> exists i :: 0 <= i < |rows| && RunningPayment(rows[i], userId, PremiumYearly, now)
  {
    Latest(rows, PaymentQuery(userId, Some(PremiumYearly), Some(now))).Some?
  }

  /** Whether a completed `daily` (ad-free) payment is still running. */
  function HasRunningDailyPass(rows: seq<Payment>, userId: nat, now: Instant): (r: bool)
    ensures r <==> exists i :: 0 <= i < |rows| && RunningPayment(rows[i], userId, Daily, now)
  {
    Latest(rows, PaymentQuery(userId, Some(Daily), Some(now))).Some?
  }

  /** A running premium or daily payment of the user. */
  predicate HidesAds(p: Payment, userId: nat, now: Instant)
  {
    RunningPayment(p, userId, PremiumYearly, now) || RunningPayment(p, userId, Daily, now)
  }

  /** `shouldSeeAds($user)`: premium access first, then a running `daily`
      payment; only those two suppress ads. */
  function ShouldSeeAds(rows: seq<Payment>, userId: nat, now: Instant): (r: bool)
    ensures !r <==> exists i :: 0 <= i < |rows| && HidesAds(rows[i], userId, now)
  {
    if HasPremiumAccess(rows, userId, now) then false
    else !HasRunningDailyPass(rows, userId, now)
  }

  /** Premium precedence: premium access always hides ads. */
  lemma PremiumHidesAds(rows: seq<Payment>, userId: nat, now: Instant)
    requires HasPremiumAccess(rows, userId, now)
    ensures !ShouldSeeAds(rows, userId, now)
  {
  }

  /** Adding a payment row that is not a premium or daily payment of the
      user (a `yearly` payment, say) never changes whether ads are shown;
      and nothing about the account, its trial included, is an input. */
  lemma {:induction false} OtherPaymentsDoNotHideAds(rows: seq<Payment>, p: Payment, userId: nat, now: Instant)
    requires p.subscriptionType != PremiumYearly && p.subscriptionType != Daily
    ensures ShouldSeeAds(rows + [p], userId, now) == ShouldSeeAds(rows, userId, now)
  {
    var rows' := rows + [p];
    if !ShouldSeeAds(rows', userId, now) {
      var i :| 0 <= i < |rows'| && HidesAds(rows'[i], userId, now);
      assert i < |rows| && rows'[i] == rows[i];
    }
    if !ShouldSeeAds(rows, userId, now) {
      var i :| 0 <= i < |rows| && HidesAds(rows[i], userId, now);
      assert rows'[i] == rows[i];
    }
  }

  /** A running daily pass hides ads, and once every daily and premium
      payment has ended the same rows show ads again. */
  lemma {:induction false} DailyPassWindow(rows: seq<Payment>, userId: nat, now: Instant, later: Instant)
    requires HasRunningDailyPass(rows, userId, now)
    requires forall i :: (0 <= i < |rows| && rows[i].userId == userId && rows[i].subscriptionEndsAt.Some?
      && (rows[i].subscriptionType == Daily || rows[i].subscriptionType == PremiumYearly)
      ==> rows[i].subscriptionEndsAt.value <= later)
    ensures !ShouldSeeAds(rows, userId, now)
    ensures ShouldSeeAds(rows, userId, later)
  {
  }

  /** The array returned by `getSubscriptionDetails($user)`. */
  datatype SubscriptionDetails = SubscriptionDetails(
    hasActiveSubscription: bool,
    isPremium: bool,
    showsAds: bool,
    subscriptionType: Option<string>,
    subscriptionEndsAt: Option<Instant>,
    trialEndsAt: Option<Instant>,
    isInTrial: bool)

  /** `getSubscriptionDetails($user)`: the account's access, the premium
      and ad decisions, and the type and end date of the latest completed
      payment with an end date, expired or not (none when there is none). */
  function GetSubscriptionDetails(a: Account, rows: seq<Payment>, userId: nat, now: Instant): (d: SubscriptionDetails)
    ensures d.hasActiveSubscription == HasActiveSubscription(a, now)
    ensures d.isPremium == HasPremiumAccess(rows, userId, now)
    ensures d.showsAds == ShouldSeeAds(rows, userId, now)
    ensures d.isPremium ==> !d.showsAds
    ensures d.isInTrial <==> SetAndFuture(a.trialEndsAt, now)
    ensures d.isInTrial ==> d.hasActiveSubscription
    ensures d.hasActiveSubscription <==> a.activeSubscriptions || d.isInTrial
    ensures d.subscriptionType.Some? <==> d.subscriptionEndsAt.Some?
    ensures d.subscriptionType.Some? <==> exists i :: 0 <= i < |rows| && Matches(rows[i], PaymentQuery(userId, None, None))
    ensures d.subscriptionType.Some? ==>
      exists i :: 0 <= i < |rows| && Matches(rows[i], PaymentQuery(userId, None, None))
        && d.subscriptionType == Some(rows[i].subscriptionType)
        && d.subscriptionEndsAt == rows[i].subscriptionEndsAt
        && forall j :: i < j < |rows| ==> !Matches(rows[j], PaymentQuery(userId, None, None))
    ensures d.trialEndsAt == a.trialEndsAt
  {
    var latest := Latest(rows, PaymentQuery(userId, None, None));
    SubscriptionDetails(
      HasActiveSubscription(a, now),
      HasPremiumAccess(rows, userId, now),
      ShouldSeeAds(rows, userId, now),
      if latest.Some? then Some(rows[latest.value].subscriptionType) else None,
      if latest.Some? then rows[latest.value].subscriptionEndsAt else None,
      a.trialEndsAt,
      SetAndFuture(a.trialEndsAt, now))
  }

  /** The row `activateSubscription` inserts. */
  function ActivationRow(userId: nat, planType: string, paymentMethod: string, transactionId: string, now: Instant): (p: Payment)
    requires IsValidSubscriptionType(planType)
    ensures p.userId == userId && p.transactionId == transactionId && p.subscriptionType == planType
    ensures IsCompleted(p) && p.amount == GetSubscriptionPrice(planType).value
    ensures p.subscriptionEndsAt == Some(now + GetSubscriptionDuration(planType).value * SecondsPerDay)
    ensures IsSubscriptionValid(p, now)
  {
    Payment(userId, Catalogue()[planType].price, Completed, paymentMethod, transactionId, planType,
      Some(CalculateEndDate(planType, None, now)),
      map["type" := Text(planType), "duration_days" := Number(Catalogue()[planType].durationDays)])
  }

  /** The account after activation: subscribed, and the trial retired. */
  function Activated(a: Account): (r: Account)
    ensures forall t :: HasActiveSubscription(r, t)
    ensures r.trialEndsAt == None
    ensures r.connectedDevicesCount == a.connectedDevicesCount && r.status == a.status
    ensures r.isAdmin == a.isAdmin && r.email == a.email && r.googleId == a.googleId
  {
    a.(activeSubscriptions := true, trialEndsAt := None)
  }

  /** `activateSubscription`: inserts one completed row priced and dated
      from the plan, then sets the subscription flag and clears the trial. */
  method ActivateSubscription(user: User, table: PaymentTable, planType: string, paymentMethod: string,
                              transactionId: string, now: Instant) returns (p: Payment)
    requires IsValidSubscriptionType(planType)
    modifies user, table
    ensures p == ActivationRow(user.id, planType, paymentMethod, transactionId, now)
    ensures table.rows == old(table.rows) + [p]
    ensures user.Snapshot() == Activated(old(user.Snapshot()))
    ensures PlansKnown(old(table.rows)) ==> PlansKnown(table.rows)
  {
    var price := GetSubscriptionPrice(planType).value;
    var duration := GetSubscriptionDuration(planType).value;
    p := Payment(user.id, price, Completed, paymentMethod, transactionId, planType,
      Some(CalculateEndDate(planType, None, now)),
      map["type" := Text(planType), "duration_days" := Number(duration)]);
    table.rows := table.rows + [p];
    user.activeSubscriptions := true;
    user.trialEndsAt := None;
  }

  /** `deactivateSubscription`: clears the subscription flag only. */
  method DeactivateSubscription(user: User)
    modifies user
    ensures user.Snapshot() == old(user.Snapshot()).(activeSubscriptions := false)
  {
    user.activeSubscriptions := false;
  }

  /** `gflix.referrals.reward_days` (configured as 30, the default too). */
  const RewardDays: int := 30

  /** The account and payment rows after `processReferralReward`. */
  function ReferralReward(a: Account, rows: seq<Payment>, userId: nat, now: Instant): (r: (Account, seq<Payment>))
    ensures |r.1| == |rows|
    ensures r.0 == a.(trialEndsAt := r.0.trialEndsAt)
  {
    if SetAndFuture(a.trialEndsAt, now) then
      (a.(trialEndsAt := Some(AddDays(a.trialEndsAt.value, RewardDays))), rows)
    else if a.activeSubscriptions then
      match Latest(rows, PaymentQuery(userId, None, None))
      case None => (a, rows)
      case Some(i) =>
        (a, rows[i := rows[i].(subscriptionEndsAt := Some(AddDays(rows[i].subscriptionEndsAt.value, RewardDays)))])
    else
      (a.(trialEndsAt := Some(AddDays(now, RewardDays))), rows)
  }

  /** Whatever branch is taken, the referrer has access right after the
      reward. */
  lemma ReferralGrantsAccess(a: Account, rows: seq<Payment>, userId: nat, now: Instant)
    ensures HasActiveSubscription(ReferralReward(a, rows, userId, now).0, now)
  {
  }

  /** The three branches: a running trial is pushed back by the reward;
      otherwise, with the subscription flag set, the latest completed payment
      with an end date (if any) is pushed back and the account is untouched;
      otherwise a new trial ends `RewardDays` from now. Rows other than the
      extended one never change, and no row is added. */
  lemma {:induction false} ReferralRewardEffect(a: Account, rows: seq<Payment>, userId: nat, now: Instant)
    ensures var (a', rows') := ReferralReward(a, rows, userId, now);
      && |rows'| == |rows|
      && (SetAndFuture(a.trialEndsAt, now) ==>
            rows' == rows && a'.trialEndsAt == Some(a.trialEndsAt.value + 30 * SecondsPerDay)
            && a' == a.(trialEndsAt := a'.trialEndsAt))
      && (!SetAndFuture(a.trialEndsAt, now) && a.activeSubscriptions ==>
            a' == a
            && (Latest(rows, PaymentQuery(userId, None, None)).None? ==> rows' == rows)
            && (Latest(rows, PaymentQuery(userId, None, None)).Some? ==>
                  var i := Latest(rows, PaymentQuery(userId, None, None)).value;
                  rows' == rows[i := rows[i].(subscriptionEndsAt := Some(rows[i].subscriptionEndsAt.value + 30 * SecondsPerDay))])
            && (forall j :: 0 <= j < |rows| && !Matches(rows[j], PaymentQuery(userId, None, None)) ==> rows'[j] == rows[j])
            && forall j :: 0 <= j < |rows| && rows'[j] != rows[j] ==>
                 && j == Latest(rows, PaymentQuery(userId, None, None)).value
                 && rows'[j] == rows[j].(subscriptionEndsAt := Some(rows[j].subscriptionEndsAt.value + 30 * SecondsPerDay)))
      && (!SetAndFuture(a.trialEndsAt, now) && !a.activeSubscriptions ==>
            rows' == rows && a' == a.(trialEndsAt := Some(now + 30 * SecondsPerDay)))
  {
    var q := PaymentQuery(userId, None, None);
    if !SetAndFuture(a.trialEndsAt, now) && a.activeSubscriptions {
      match Latest(rows, q)
      case None =>
      case Some(i) =>
        assert Matches(rows[i], q);
    }
  }

  /** `processReferralReward($referrer)`. */
  method ProcessReferralReward(referrer: User, table: PaymentTable, now: Instant)
    modifies referrer, table
    ensures (referrer.Snapshot(), table.rows)
      == ReferralReward(old(referrer.Snapshot()), old(table.rows), referrer.id, now)
  {
    if referrer.trialEndsAt.Some? && referrer.trialEndsAt.value > now {
      referrer.trialEndsAt := Some(AddDays(referrer.trialEndsAt.value, RewardDays));
    } else if referrer.activeSubscriptions {
      var latest := Latest(table.rows, PaymentQuery(referrer.id, None, None));
      if latest.Some? {
        var i := latest.value;
        var p := table.rows[i];
        table.rows := table.rows[i := p.(subscriptionEndsAt := Some(AddDays(p.subscriptionEndsAt.value, RewardDays)))];
      }
    } else {
      referrer.trialEndsAt := Some(AddDays(now, RewardDays));
    }
  }
}

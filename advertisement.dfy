/** The `Advertisement` model (app/Models/Advertisement.php) and the ad
    decisions of the advertisement service
    (app/Services/AdvertisementService.php): the display window, its query
    scope, the schedule filter, the view and click counters, and the gate
    that serves no ad to a user who should not see ads. */
module Ads {
  import opened Base
  import opened Payments
  import opened Subscriptions

  datatype AdStatus = AdActive | AdInactive

  /** An `advertisements` row: its counters are updated in place. */
  class Advertisement {
    const adType: string
    var status: AdStatus
    var startDate: Option<Instant>
    var endDate: Option<Instant>
    var views: int
    var clicks: int

    /** A new row with the column defaults: active, no views, no clicks. */
    constructor (adType: string, startDate: Option<Instant>, endDate: Option<Instant>)
      ensures this.adType == adType && status == AdActive
      ensures this.startDate == startDate && this.endDate == endDate
      ensures views == 0 && clicks == 0
    {
      this.adType := adType;
      status := AdActive;
      this.startDate := startDate;
      this.endDate := endDate;
      views := 0;
      clicks := 0;
    }

    /** `isActive()`: status `active`, a start that is unset or not after
        now, and an end that is unset or not before now. Both bounds are
        inclusive. */
    function IsActive(now: Instant): (r: bool)
      reads this
      ensures r ==> status == AdActive
      ensures r <==> InActiveScope(status, startDate, endDate, now)
      ensures startDate.None? && endDate.None? ==> (r <==> status == AdActive)
    {
      && status == AdActive
      && (startDate.None? || startDate.value <= now)
      && (endDate.None? || endDate.value >= now)
    }

    /** `incrementViews()`: one more view, nothing else changes. */
    method IncrementViews()
      modifies this
      ensures views == old(views) + 1
      ensures clicks == old(clicks) && status == old(status)
      ensures startDate == old(startDate) && endDate == old(endDate)
    {
      views := views + 1;
    }

    /** `incrementClicks()`: one more click, nothing else changes. */
    method IncrementClicks()
      modifies this
      ensures clicks == old(clicks) + 1
      ensures views == old(views) && status == old(status)
      ensures startDate == old(startDate) && endDate == old(endDate)
    {
      clicks := clicks + 1;
    }
  }

  /** The row condition of `scopeActive` as the query writes it, where a
      comparison with NULL is not true. */
  predicate InActiveScope(status: AdStatus, startDate: Option<Instant>, endDate: Option<Instant>, now: Instant)
  {
    && status == AdActive
    && (startDate == None || (startDate.Some? && startDate.value <= now))
    && (endDate == None || (endDate.Some? && endDate.value >= now))
  }

  /** `Advertisement::active()`: selects, in order, exactly the ads for
      which `isActive()` holds at the same instant. */
  function ScopeActive(ads: seq<Advertisement>, now: Instant): (r: seq<Advertisement>)
    reads ads
    ensures |r| <= |ads|
    ensures forall i :: 0 <= i < |r| ==> r[i] in ads && r[i].IsActive(now)
    ensures forall i :: 0 <= i < |ads| ==> (ads[i] in r <==> ads[i].IsActive(now))
  {
    if ads == [] then []
    else
      var rest := ScopeActive(ads[1..], now);
      if InActiveScope(ads[0].status, ads[0].startDate, ads[0].endDate, now) then [ads[0]] + rest else rest
  }

  /** `shouldShowAd($ad)`, with its early returns: not active status, a
      start strictly in the future, or an end strictly in the past each rule
      the ad out. It agrees with `isActive()` at the same instant. */
  function ShouldShowAd(ad: Advertisement, now: Instant): (r: bool)
    reads ad
    ensures ad.status != AdActive ==> !r
    ensures ad.startDate.Some? && IsFuture(ad.startDate.value, now) ==> !r
    ensures ad.endDate.Some? && IsPast(ad.endDate.value, now) ==> !r
    ensures r <==> ad.IsActive(now)
  {
    if ad.status != AdActive then false
    else if ad.startDate.Some? && IsFuture(ad.startDate.value, now) then false
    else if ad.endDate.Some? && IsPast(ad.endDate.value, now) then false
    else true
  }

  /** `recordView($ad)`. */
  method RecordView(ad: Advertisement)
    modifies ad
    ensures ad.views == old(ad.views) + 1 && ad.clicks == old(ad.clicks)
    ensures ad.status == old(ad.status) && ad.startDate == old(ad.startDate) && ad.endDate == old(ad.endDate)
  {
    ad.IncrementViews();
  }

  /** `recordClick($ad)`. */
  method RecordClick(ad: Advertisement)
    modifies ad
    ensures ad.clicks == old(ad.clicks) + 1 && ad.views == old(ad.views)
    ensures ad.status == old(ad.status) && ad.startDate == old(ad.startDate) && ad.endDate == old(ad.endDate)
  {
    ad.IncrementClicks();
  }

  /** The `getSchedule($s, $e)` row condition as the query writes it: start
      between the bounds, or end between them, or start no later than `s`
      with end no earlier than `e`. Every comparison with NULL is false. */
  predicate InSchedule(startDate: Option<Instant>, endDate: Option<Instant>, s: Instant, e: Instant)
  {
    || (startDate.Some? && s <= startDate.value <= e)
    || (endDate.Some? && s <= endDate.value <= e)
    || (startDate.Some? && endDate.Some? && startDate.value <= s && endDate.value >= e)
  }

  /** For an ad with both dates, ordered, and an ordered period, the
      schedule filter is exactly "the two closed intervals overlap". */
  lemma ScheduleIsOverlap(start: Instant, end: Instant, s: Instant, e: Instant)
    requires start <= end && s <= e
    ensures InSchedule(Some(start), Some(end), s, e) <==> start <= e && end >= s
  {
  }

  /** An ad with only one date is scheduled iff that date falls in the
      period; an ad with neither is never scheduled, even though such an ad
      is always displayable. */
  lemma ScheduleWithOpenEnds(date: Instant, s: Instant, e: Instant, now: Instant)
    ensures InSchedule(Some(date), None, s, e) <==> s <= date <= e
    ensures InSchedule(None, Some(date), s, e) <==> s <= date <= e
    ensures !InSchedule(None, None, s, e)
    ensures InActiveScope(AdActive, None, None, now)
  {
  }

  /** `getSchedule($s, $e)`: the ads the filter keeps, in order. */
  function GetSchedule(ads: seq<Advertisement>, s: Instant, e: Instant): (r: seq<Advertisement>)
    reads ads
    ensures |r| <= |ads|
    ensures forall i :: 0 <= i < |r| ==> r[i] in ads && InSchedule(r[i].startDate, r[i].endDate, s, e)
    ensures forall i :: 0 <= i < |ads| ==> (ads[i] in r <==> InSchedule(ads[i].startDate, ads[i].endDate, s, e))
  {
    if ads == [] then []
    else
      var rest := GetSchedule(ads[1..], s, e);
      if InSchedule(ads[0].startDate, ads[0].endDate, s, e) then [ads[0]] + rest else rest
  }

  /** The active ads of one type, in order. */
  function ActiveOfType(ads: seq<Advertisement>, adType: string, now: Instant): (r: seq<Advertisement>)
    reads ads
    ensures forall i :: 0 <= i < |r| ==> r[i] in ads && r[i].IsActive(now) && r[i].adType == adType
    ensures forall i :: 0 <= i < |ads| ==> (ads[i] in r <==> ads[i].IsActive(now) && ads[i].adType == adType)
  {
    if ads == [] then []
    else
      var rest := ActiveOfType(ads[1..], adType, now);
      if ads[0].IsActive(now) && ads[0].adType == adType then [ads[0]] + rest else rest
  }

  /** `getNextAd($user, $type, $position)`: nothing for a user who should
      not see ads; otherwise one active ad of the type (the random order is
      the `pick` index), or nothing when there is none. */
  function GetNextAd(rows: seq<Payment>, userId: nat, ads: seq<Advertisement>, adType: string, now: Instant,
                     pick: nat): (r: Option<Advertisement>)
    reads ads
    ensures !ShouldSeeAds(rows, userId, now) ==> r == None
    ensures r.Some? ==>
      && ShouldSeeAds(rows, userId, now) && r.value in ads
      && r.value.IsActive(now) && r.value.adType == adType
    ensures r.None? && ShouldSeeAds(rows, userId, now) ==>
      forall i :: 0 <= i < |ads| ==> !(ads[i].IsActive(now) && ads[i].adType == adType)
  {
    if !ShouldSeeAds(rows, userId, now) then None
    else
      var candidates := ActiveOfType(ads, adType, now);
      if candidates == [] then None else Some(candidates[pick % |candidates|])
  }

  /** A premium subscriber is never served an ad. */
  lemma PremiumGetsNoAd(rows: seq<Payment>, userId: nat, ads: seq<Advertisement>, adType: string,
                        now: Instant, pick: nat)
    requires HasPremiumAccess(rows, userId, now)
    ensures GetNextAd(rows, userId, ads, adType, now, pick) == None
  {
    PremiumHidesAds(rows, userId, now);
  }
}

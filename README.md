# g-flix entitlement, ledger and device model

g-flix is a Laravel back end for an IPTV streaming service. Users register
(or sign in with Google) and get a 24-hour trial. They buy one of three
plans through the Apaym payment gateway. They stream channels while their
subscription or trial lasts, and they see advertisements unless a premium or
daily ad-free plan is running. This project models the logic at the centre
of that in Dafny and proves its properties:

- **Entitlement.** `hasActiveSubscription`, premium access, the ad decision,
  the subscription summary and channel access are modelled as predicates
  over a user's columns, the `payments` rows and an integer clock.
- **Payment ledger and reconciler.** The `payments` table is a class holding
  its rows in insertion order. Initiation, verification and the signed
  callback are modelled twice: as functions on values (`World`, the rows plus
  the users by id), and as methods that update the table and the `User`
  objects in place. Each method is proved to produce exactly what its
  function describes. The model follows the code as written. Verification
  has no terminal state, and activation inserts a second completed row with
  the same transaction id. So repeating a successful verification activates
  again.
- **Device counter.** `connected_devices_count` is bounded in [0, 2] by the
  `User` methods. The login, logout and Google-callback decision order drives
  it.
- **Time windows.** Plan end dates and the `Payment` end-date helper are
  modelled. That helper gives `premium_yearly` no extra time. The referral
  reward's three branches are modelled too. Instants are whole seconds, and
  a day is 86400 of them. "Add one calendar year" is a function parameter.
- **Advertisements.** The model covers the display window (inclusive bounds),
  its scope, `shouldShowAd`, the schedule filter, the view and click
  counters, and the ad gate.
- **String helpers.** The model covers the streaming-token URL suffix, the
  transaction-id format and the `mm:ss` duration text.

Modules follow the source files: `Base` (options, results, time), `Plans`
(config/gflix.php), `Payments` (Payment.php), `Users` (User.php),
`Subscriptions` (SubscriptionService.php), `PaymentService`, `Channels`
(ChannelService.php), `Ads` (Advertisement.php, AdvertisementService.php),
`Auth` (AuthController.php) and `WatchHistory` (WatchHistory.php).

Parameters stand in for what the code gets from outside:
- the gateway's HTTP replies (a success flag plus the decoded `status`, `reference` and `payment_url`);
- the `Str::random(20)` suffix;
- the keyed HMAC;
- `encrypt`;
- the clock;
- the credential check and the Google lookup (the user they find, if any);
- the random pick of an ad.

The model follows the code as written:
- Verification overwrites a `completed` or `failed` row again.
- The activated plan is recorded on a new row, not on the pending one.
- `Payment::calculateSubscriptionEndDate('premium_yearly')` is "now".
- The `max_devices` and `trial_period_hours` settings are ignored. The literals 2 and 24 are used instead.
- Reading an absent key of the gateway's JSON reply throws. A verification reply without `status` therefore changes nothing and fails. An initiation reply without `payment_url` fails after its pending row is inserted.

## Model

| member | source | states |
|---|---|---|
| Plans.ValidTypesAreExactlyTheThreePlans | app/Services/SubscriptionService.php:18-21 | a type is valid iff it is `yearly`, `daily` or `premium_yearly` |
| Plans.GetSubscriptionPrice | app/Services/SubscriptionService.php:29-32 | price present iff the type is valid; 10000, 200 and 15000 for the three plans (config/gflix.php:25-41) |
| Plans.GetSubscriptionDuration | app/Services/SubscriptionService.php:40-43 | duration present iff the type is valid; 1 day for `daily`, 365 for both yearly plans |
| Plans.CalculateEndDate | app/Services/SubscriptionService.php:52-58 | end = start (default now) + duration days, strictly after the start |
| Payments.CalculateSubscriptionEndDate | app/Models/Payment.php:83-92 | `yearly` gives addYear(now), `daily` now + 1 day, any other type (premium included) now |
| Payments.PremiumYearlyEndDateIsNow | app/Models/Payment.php:90 | the premium plan's helper end date is now, strictly before its plan end date |
| Payments.IsCompleted | app/Models/Payment.php:67-70 | completed exactly when the status is neither pending nor failed |
| Payments.IsSubscriptionValid | app/Models/Payment.php:75-78 | whatever the status: valid iff the "ends after now" query would keep the row were it completed, i.e. an end date is set and strictly after now; never valid without an end date |
| Payments.ScopeCompleted | app/Models/Payment.php:51-54 | selects exactly the completed rows, each as many times as it occurs |
| Payments.ScopePending | app/Models/Payment.php:59-62 | selects exactly the pending rows, each as many times as it occurs |
| Payments.WithStatus | app/Models/Payment.php:51-62 | a row is kept iff it has the status, with its multiplicity; never more rows than the input |
| Payments.Latest | app/Services/SubscriptionService.php:120-126 | the last inserted matching row; none later matches; none iff no row matches |
| Payments.FirstWithTransactionId | app/Services/PaymentService.php:120 | the earliest row with the id; none earlier has it; none iff no row has it |
| Payments.FirstWithTransactionIdStable | app/Services/PaymentService.php:120 | appending rows never moves the first row of an id already present |
| Users.NewAccount | database/migrations/2025_03_19_171949_update_users_table.php:15-19 | defaults: active, not subscribed, 0 devices, no trial |
| Users.CountAfterIncrement | app/Models/User.php:119-126 | unchanged at 2 or more, otherwise one more; never exceeds 2 from at most 2 |
| Users.CountAfterDecrement | app/Models/User.php:131-136 | one less when positive, no-op at 0; never negative from non-negative |
| Users.CounterStaysInRange | app/Models/User.php:119-136 | any sequence of increments and decrements from [0, 2] stays in [0, 2] |
| Users.CounterSaturatesAtLimit | app/Models/User.php:111-126 | from 0, n increments give min(n, 2) |
| Users.User.IncrementConnectedDevices | app/Models/User.php:119-126 | succeeds iff count < 2, then exactly +1; otherwise nothing changes |
| Users.User.DecrementConnectedDevices | app/Models/User.php:131-136 | −1 when positive, no-op otherwise; no other column changes |
| Users.User.MakeAdmin | app/Models/User.php:141-153 | afterwards `isAdmin` holds (flag exactly true); nothing else changes |
| Users.User.RemoveAdmin | app/Models/User.php:141-162 | afterwards `isAdmin` fails; nothing else changes |
| Users.HasActiveSubscription | app/Models/User.php:102-106 | the flag always grants access; without it, access iff a trial is set and ends strictly after now |
| Users.CanConnectNewDevice | app/Models/User.php:111-114 | true exactly when `incrementConnectedDevices` would add a device rather than throw |
| Users.IsAdmin | app/Models/User.php:141-144 | strict `=== true`: an unset or false flag is not admin |
| Users.ScopeWithActiveSubscription | app/Models/User.php:175-182 | the query keeps a user iff `hasActiveSubscription` (User.php:102-106) holds |
| Subscriptions.HasPremiumAccess | app/Services/SubscriptionService.php:118-129 | true iff some completed `premium_yearly` row of the user has an end date strictly after now |
| Subscriptions.HasRunningDailyPass | app/Services/SubscriptionService.php:145-153 | true iff some completed `daily` row of the user ends strictly after now |
| Subscriptions.ShouldSeeAds | app/Services/SubscriptionService.php:137-154 | false iff a running premium or daily row exists; yearly rows and trials never matter |
| Subscriptions.PremiumHidesAds | app/Services/SubscriptionService.php:139-142 | premium access implies no ads |
| Subscriptions.OtherPaymentsDoNotHideAds | app/Services/SubscriptionService.php:137-154 | adding a row of any other plan never changes the ad decision |
| Subscriptions.DailyPassWindow | app/Services/SubscriptionService.php:145-153 | a running daily pass hides ads; once all daily and premium rows have ended, ads return |
| Subscriptions.GetSubscriptionDetails | app/Services/SubscriptionService.php:162-179 | access, `is_premium` and `shows_ads` equal `hasActiveSubscription`, `hasPremiumAccess` and `shouldSeeAds`; `is_in_trial` iff trial set and future; type and end date are those of the last completed row with an end date, none iff there is no such row |
| Subscriptions.ActivationRow | app/Services/SubscriptionService.php:76-88 | completed row with plan price and end now + duration days, valid now |
| Subscriptions.Activated | app/Services/SubscriptionService.php:91-94 | subscribed at every instant, trial cleared, other columns kept |
| Subscriptions.ActivateSubscription | app/Services/SubscriptionService.php:69-97 | appends exactly that row, updates the user as `Activated`, keeps every row's plan known |
| Subscriptions.DeactivateSubscription | app/Services/SubscriptionService.php:105-110 | clears only the subscription flag |
| Subscriptions.ReferralReward | app/Services/SubscriptionService.php:187-211 | no row added; of the account only the trial end can change |
| Subscriptions.ReferralGrantsAccess | app/Services/SubscriptionService.php:187-211 | whichever branch runs, the referrer has access right after |
| Subscriptions.ReferralRewardEffect | app/Services/SubscriptionService.php:187-211 | future trial extended by 30 days; else, if subscribed, only the latest completed row with an end date is extended by 30 days; else a trial until now + 30 days; no row added |
| Subscriptions.ProcessReferralReward | app/Services/SubscriptionService.php:187-211 | user and rows end up as `ReferralReward` describes |
| PaymentService.GenerateTransactionId | app/Services/PaymentService.php:183-186 | `GFLIX-` followed by the 20 random characters, 26 in all |
| PaymentService.TransactionIdInjective | app/Services/PaymentService.php:183-186 | different random suffixes give different ids |
| PaymentService.VerifyCallbackSignature | app/Services/PaymentService.php:194-200 | no verdict (the read throws) iff `transaction_id` is absent; accepted iff the sent signature equals the HMAC of the id (an absent one never does) |
| PaymentService.PendingRow | app/Services/PaymentService.php:75-86 | pending row with plan price, id, type, and no end date |
| PaymentService.Initialize | app/Services/PaymentService.php:39-98 | unknown plan fails first with no row; refused initiation adds no row; an accepted one adds exactly one pending row; it succeeds iff the reply has a `payment_url` key, returning that row's id and amount, and otherwise fails with the row kept |
| PaymentService.GatewayOutcome | app/Services/PaymentService.php:126-148 | completed iff the gateway status is exactly `success`, failed otherwise |
| PaymentService.Verify | app/Services/PaymentService.php:107-159 | fails iff the gateway call fails, no row has the id, or the reply has no `status` key (in that order), and then nothing changes; otherwise only the first row of the id changes, one row is added iff completed, owners and plans stay consistent |
| PaymentService.HandleCallback | app/Services/PaymentService.php:168-176 | a missing `transaction_id` or a bad signature fails with nothing changed; a good one is exactly `Verify` of the id |
| PaymentService.VerifyIgnoresPriorStatus | app/Services/PaymentService.php:126-148 | the outcome is the same whatever the row's prior status: no terminal state |
| PaymentService.VerifySuccessEffect | app/Services/PaymentService.php:126-140 | row completed, earlier detail keys kept, `verification_response` holds the latest reply, activation row appended, owner activated |
| PaymentService.VerifyFailureEffect | app/Services/PaymentService.php:141-148 | row failed with the reply merged in, no account change |
| PaymentService.RepeatedSuccessReactivates | app/Services/PaymentService.php:126-140 | two success verifications append two completed rows with the same id |
| PaymentService.CompletedRowCanBecomeFailed | app/Services/PaymentService.php:126-148 | a later non-success reply turns a completed row failed; the activation stays |
| PaymentService.PurchaseLifecycle | app/Services/PaymentService.php:39-159 | initiate then verify with success: the new row is completed, an activation row follows, the owner has access at every instant |
| PaymentService.TamperedCallbackChangesNothing | app/Services/PaymentService.php:171-173 | a missing id or a wrong or missing signature fails and leaves the world unchanged |
| PaymentService.InitializeTransaction | app/Services/PaymentService.php:39-98 | the table and result are exactly those of `Initialize` |
| PaymentService.VerifyTransaction | app/Services/PaymentService.php:107-159 | the table and all users end exactly as `Verify` describes |
| PaymentService.HandleCallbackRequest | app/Services/PaymentService.php:168-176 | the table and all users end exactly as `HandleCallback` describes |
| Channels.CanAccessChannel | app/Services/ChannelService.php:100-104 | equals `hasActiveSubscription`, whatever the channel |
| Channels.TokenExpiry | app/Services/ChannelService.php:191 | issue time + 3600 seconds |
| Channels.QueryPart | app/Services/ChannelService.php:206 | the query is the text after the first `?` before any `#`, up to the `#` |
| Channels.AppendTokenToUrl | app/Services/ChannelService.php:204-208 | url kept as prefix, `&` iff a truthy query exists else `?`, then `token=` and the token |
| Channels.AppendTokenRecovers | app/Services/ChannelService.php:204-208 | the url and the token are both recovered from the result |
| Channels.AppendedUrlHasQuery | app/Services/ChannelService.php:206-207 | without `#`, the result's query ends in `token=<token>`, so a second append uses `&` |
| Channels.TokenAfterFragment | app/Services/ChannelService.php:206-207 | with a `#`, the query is unchanged: the token lands in the fragment |
| Channels.StreamingUrl | app/Services/ChannelService.php:66-91 | granted iff the user has an active subscription; the url carries the token of (channel, user, expiry); lifetime 3600 |
| Channels.GetStreamingUrl | app/Services/ChannelService.php:66-91 | refusal records nothing; success appends exactly one history row and one view |
| Ads.Advertisement.IncrementViews | app/Models/Advertisement.php:71-74 | views +1, nothing else |
| Ads.Advertisement.IncrementClicks | app/Models/Advertisement.php:79-82 | clicks +1, nothing else |
| Ads.Advertisement.IsActive | app/Models/Advertisement.php:87-94 | agrees with the `scopeActive` row condition; an ad with no dates is active iff its status is |
| Ads.ScopeActive | app/Models/Advertisement.php:45-58 | the query keeps an ad iff `isActive` (Advertisement.php:87-94, inclusive bounds) holds |
| Ads.ShouldShowAd | app/Services/AdvertisementService.php:166-183 | false for inactive status, future start or past end; equal to `isActive` |
| Ads.RecordView | app/Services/AdvertisementService.php:75-78 | views +1, clicks and window unchanged |
| Ads.RecordClick | app/Services/AdvertisementService.php:86-89 | clicks +1, views and window unchanged |
| Ads.ScheduleIsOverlap | app/Services/AdvertisementService.php:140-145 | for dated, ordered ads and periods the filter is exactly interval overlap |
| Ads.ScheduleWithOpenEnds | app/Services/AdvertisementService.php:140-145 | one date: kept iff it lies in the period; no dates: never kept |
| Ads.GetSchedule | app/Services/AdvertisementService.php:138-158 | keeps an ad iff the filter holds for it |
| Ads.GetNextAd | app/Services/AdvertisementService.php:55-67 | nothing when the user should not see ads; otherwise an active ad of the type, nothing only when none exists |
| Ads.PremiumGetsNoAd | app/Services/AdvertisementService.php:57-59 | a premium user is never served an ad |
| Auth.RegisteredAccount | app/Http/Controllers/Api/AuthController.php:45-52 | active, 0 devices, trial now + 24 h; access exactly before that instant |
| Auth.Register | app/Http/Controllers/Api/AuthController.php:45-52 | a new user with exactly those columns |
| Auth.LoginDecision | app/Http/Controllers/Api/AuthController.php:87-105 | invalid credentials, then status check, then device check; logs in iff active with a free slot |
| Auth.AfterLogin | app/Http/Controllers/Api/AuthController.php:93-105 | only a successful login adds one device, never beyond 2 |
| Auth.Login | app/Http/Controllers/Api/AuthController.php:74-114 | outcome is `LoginDecision`; the user ends as `AfterLogin` |
| Auth.Logout | app/Http/Controllers/Api/AuthController.php:132-139 | one device less, floored at 0 |
| Auth.GoogleAccount | app/Http/Controllers/Api/AuthController.php:187-196 | a new active account with the Google id, no device, and access for exactly the next 24 hours |
| Auth.GoogleSignIn | app/Http/Controllers/Api/AuthController.php:183-209 | a missing user is created with a 24 h trial and logs in with one device; a found one gets a Google id only if it had none, then exactly the login checks and increment |
| Auth.GoogleCallback | app/Http/Controllers/Api/AuthController.php:178-223 | the found or new user ends as `GoogleSignIn` describes |
| Auth.SessionsKeepDevicesInRange | app/Http/Controllers/Api/AuthController.php:93-135 | any logins and logouts keep the counter in [0, 2] and change nothing else |
| Auth.SessionsAreCounterOps | app/Http/Controllers/Api/AuthController.php:99-105 | for an active account, logins and logouts are exactly the guarded counter operations |
| Auth.InactiveAccountsGainNoDevice | app/Http/Controllers/Api/AuthController.php:93-96 | a non-active account never gains a device |
| WatchHistory.WatchHistoryLog.CreateEntry | app/Models/WatchHistory.php:99-112 | appends one row for user, channel, now, no duration |
| WatchHistory.Digits | app/Models/WatchHistory.php:93 | decimal digits, one digit iff below 10 |
| WatchHistory.ParseDigits | app/Models/WatchHistory.php:93 | reading the digits of n gives n |
| WatchHistory.Pad2 | app/Models/WatchHistory.php:93 | `%02d`: at least two characters, never truncated, sign kept |
| WatchHistory.ParsePad2 | app/Models/WatchHistory.php:93 | reading a padded number gives it back |
| WatchHistory.PhpMod | app/Models/WatchHistory.php:91 | PHP `%`: the remainder for non-negative values; for negative ones the negated remainder of the magnitude |
| WatchHistory.PhpModByMinute | app/Models/WatchHistory.php:91 | the remainder by 60 differs from the duration by whole minutes, whatever the sign |
| WatchHistory.DurationForHumans | app/Models/WatchHistory.php:88-94 | at least five characters, colon three from the end for non-negative durations |
| WatchHistory.SingleColon | app/Models/WatchHistory.php:93 | exactly one colon |
| WatchHistory.SecondsField | app/Models/WatchHistory.php:91-93 | seconds: two digits worth duration mod 60 |
| WatchHistory.MinutesField | app/Models/WatchHistory.php:90-93 | minutes: at least two digits worth duration div 60 |
| WatchHistory.DurationRoundTrip | app/Models/WatchHistory.php:90-93 | minutes · 60 + seconds gives the duration back |
| WatchHistory.NegativeDurationRendering | app/Models/WatchHistory.php:88-94 | −30 seconds renders as `-1:-30` |
| WatchHistory.NullDurationIsZero | app/Models/WatchHistory.php:88-94 | a null duration renders `00:00` |
| WatchHistory.LongDurationsAreNotTruncated | app/Models/WatchHistory.php:93 | 100 minutes or more keep all their digits |

## Left out

- HTTP: the gateway calls, JSON encoding of requests and responses, and the response shaping of the controllers. Gateway replies are parameters.
- Cryptography and randomness (`hash_hmac`, `encrypt`, `Str::random`, `Hash::make`, referral codes) are parameters, with the length the code guarantees.
- Concurrency: the check-then-increment of the device counter and the unguarded status overwrite in verification are races in the code; the model runs every request alone.
- Floating point: click-through rate, ad statistics and payment success rate.
- Caching (`Cache::remember`): the entitlement gate of `getNextAd` runs before the 300-second cache, so it is always current, but a cached ad can outlive its own status or end date; the model picks from the ads active now. The random ad order is the `pick` index.
- SQL aggregation and pagination: channel, ad and payment listings, statistics, history queries and category counts.
- Other controllers, middleware, routes, seeders; migrations only provide the column defaults.
- `IptvChannel` beyond its view counter and playlist link; the users' own `scopeActive` (status filter).
- Calendar arithmetic: `addYear` is a parameter; days are fixed 86400-second steps.
- The Socialite exchange and request validation; a failed Google exchange or validation error changes nothing.
- `latest()` ties: rows are ordered by insertion, which stands in for `created_at`.
- Payments.FirstWithTransactionId: `where('transaction_id', …)->first()` has no ORDER BY, so the database may return any row with the id; the model takes the earliest inserted one.
- JSON replies: a key whose value is not a string is read as `null`.
- PaymentService.HandleCallback: a `transaction_id` that is present but not a string is not modelled: a number would be signed over its unquoted digits and coerced for the lookup, and `null` fails the string parameter of `verifyTransaction`.
- Payments.WithStatus: the order of the kept rows is not stated, only their multiplicities.
- Channels.QueryPart: does not model `parse_url` rejecting a malformed URL (returning false, so `?` is used) or `?` inside the authority part.
- PaymentService.Initialize: the exception wrapping of messages is not modelled; errors are a datatype.
- Users.User: only the columns the core reads; names, passwords and referral codes are left out.

## Notes on the code as written

- A repeated `success` verification of the same transaction id activates again and adds another completed row (PaymentService.RepeatedSuccessReactivates).
- A later non-success reply turns a completed payment `failed` while its activation stays (PaymentService.CompletedRowCanBecomeFailed).
- The streaming token is appended after a `#` fragment when the playlist URL has one (Channels.TokenAfterFragment).
- A negative duration renders with signs in both fields (`-1:-30` for −30 s); the duration properties are stated for non-negative durations.

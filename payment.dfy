/** A row of the `payments` table (app/Models/Payment.php), the predicates and
    scopes the model class defines over it, and the table itself. */
module Payments {
  import opened Base
  import opened Plans

  datatype PaymentStatus = Pending | Completed | Failed

  /** One key of a decoded JSON object: absent, or present with its string
      value (`None` when the value is `null` or not a string). Reading an
      absent key with `$data['key']` raises a warning, which the framework
      turns into an exception; `$data['key'] ?? null` does not. */
  datatype JsonKey = Absent | Present(value: Option<string>)

  /** The gateway's decoded JSON reply. Only its `status` key is read by the
      service; the rest is carried along for audit. A body that is not a JSON
      object has no `status` key. */
  datatype GatewayData = GatewayData(status: JsonKey, body: string)

  /** A value stored in the `payment_details` JSON column. */
  datatype Detail = Null | Text(text: string) | Number(number: int) | Gateway(data: GatewayData)

  datatype Payment = Payment(
    userId: nat,
    amount: nat,
    status: PaymentStatus,
    paymentMethod: string,
    transactionId: string,
    subscriptionType: string,
    subscriptionEndsAt: Option<Instant>,
    details: map<string, Detail>)

  /** `isCompleted()`: the status is exactly `completed`. */
  function IsCompleted(p: Payment): (r: bool)
    ensures r ==> p.status != Pending && p.status != Failed
    ensures !r ==> p.status == Pending || p.status == Failed
  {
    p.status == Completed
  }

  /** `isSubscriptionValid()`: an end date is recorded and it is strictly in
      the future. */
  function IsSubscriptionValid(p: Payment, now: Instant): (r: bool)
    ensures p.subscriptionEndsAt.None? ==> !r
    ensures IsCompleted(p) ==> (r <==> Matches(p, PaymentQuery(p.userId, None, Some(now))))
    ensures r <==> Matches(p.(status := Completed), PaymentQuery(p.userId, None, Some(now)))
  {
    SetAndFuture(p.subscriptionEndsAt, now)
  }

  /** `Payment::calculateSubscriptionEndDate($type)`: a `match` on the type
      that knows only `yearly` and `daily`; every other type, `premium_yearly`
      included, falls to the default arm and yields the current instant.
      `addYear` is Carbon's calendar-year step. */
  function CalculateSubscriptionEndDate(subscriptionType: string, now: Instant, addYear: Instant -> Instant): (r: Instant)
    ensures subscriptionType == Yearly ==> r == addYear(now)
    ensures subscriptionType == Daily ==> r == now + SecondsPerDay
    ensures subscriptionType != Yearly && subscriptionType != Daily ==> r == now
  {
    if subscriptionType == Yearly then addYear(now)
    else if subscriptionType == Daily then AddDays(now, 1)
    else now
  }

  /** The premium plan gets no extra time from the model-level end-date
      helper, unlike the one-day and one-year plans. */
  lemma PremiumYearlyEndDateIsNow(now: Instant, addYear: Instant -> Instant)
    ensures CalculateSubscriptionEndDate(PremiumYearly, now, addYear) == now
    ensures CalculateSubscriptionEndDate(PremiumYearly, now, addYear)
      < Plans.CalculateEndDate(PremiumYearly, None, now)
  {
  }

  /** `where('status', $s)`: the rows with that status, in table order. */
  function WithStatus(rows: seq<Payment>, s: PaymentStatus): (r: seq<Payment>)
    ensures |r| <= |rows|
    ensures forall p :: p in r <==> p in rows && p.status == s
    ensures forall p :: multiset(r)[p] == if p.status == s then multiset(rows)[p] else 0
  {
    if rows == [] then []
    else
      assert rows == [rows[0]] + rows[1..];
      if rows[0].status == s then [rows[0]] + WithStatus(rows[1..], s)
      else WithStatus(rows[1..], s)
  }

  /** `scopeCompleted`: exactly the completed rows. */
  function ScopeCompleted(rows: seq<Payment>): (r: seq<Payment>)
    ensures forall p :: p in r <==> p in rows && IsCompleted(p)
    ensures forall p :: multiset(r)[p] == if IsCompleted(p) then multiset(rows)[p] else 0
  {
    WithStatus(rows, Completed)
  }

  /** `scopePending`: exactly the pending rows. */
  function ScopePending(rows: seq<Payment>): (r: seq<Payment>)
    ensures forall p :: p in r <==> p in rows && p.status == Pending
    ensures forall p :: multiset(r)[p] == if p.status == Pending then multiset(rows)[p] else 0
  {
    WithStatus(rows, Pending)
  }

  /** The query the subscription service builds on `$user->payments()`:
      `where('status', 'completed')`, optionally `where('subscription_type', t)`,
      `whereNotNull('subscription_ends_at')` and optionally
      `where('subscription_ends_at', '>', $after)`. */
  datatype PaymentQuery = PaymentQuery(userId: nat, subscriptionType: Option<string>, endsAfter: Option<Instant>)

  predicate Matches(p: Payment, q: PaymentQuery)
  {
    && p.userId == q.userId
    && p.status == Completed
    && p.subscriptionEndsAt.Some?
    && (q.subscriptionType.Some? ==> p.subscriptionType == q.subscriptionType.value)
    && (q.endsAfter.Some? ==> p.subscriptionEndsAt.value > q.endsAfter.value)
  }

  /** `->latest()->first()`: the index of the most recently inserted row that
      matches, or null when none does. */
  function Latest(rows: seq<Payment>, q: PaymentQuery): (r: Option<nat>)
    ensures r.Some? ==> r.value < |rows| && Matches(rows[r.value], q)
    ensures r.Some? ==> forall j :: r.value < j < |rows| ==> !Matches(rows[j], q)
    ensures r.None? <==> forall j :: 0 <= j < |rows| ==> !Matches(rows[j], q)
  {
    if rows == [] then None
    else if Matches(rows[|rows| - 1], q) then Some(|rows| - 1)
    else Latest(rows[..|rows| - 1], q)
  }

  /** `Payment::where('transaction_id', $id)->first()`: the index of the
      earliest inserted row carrying that transaction id. */
  function FirstWithTransactionId(rows: seq<Payment>, transactionId: string): (r: Option<nat>)
    ensures r.Some? ==> r.value < |rows| && rows[r.value].transactionId == transactionId
    ensures r.Some? ==> forall j :: 0 <= j < r.value ==> rows[j].transactionId != transactionId
    ensures r.None? <==> forall j :: 0 <= j < |rows| ==> rows[j].transactionId != transactionId
  {
    if rows == [] then None
    else if rows[0].transactionId == transactionId then Some(0)
    else match FirstWithTransactionId(rows[1..], transactionId)
      case None => None
      case Some(k) => Some(k + 1)
  }

  /** Appending rows never moves the first row of a transaction id that is
      already present. */
  lemma {:induction false} FirstWithTransactionIdStable(rows: seq<Payment>, extra: seq<Payment>, transactionId: string)
    requires FirstWithTransactionId(rows, transactionId).Some?
    ensures FirstWithTransactionId(rows + extra, transactionId) == FirstWithTransactionId(rows, transactionId)
  {
    var k := FirstWithTransactionId(rows, transactionId).value;
    var r := FirstWithTransactionId(rows + extra, transactionId);
    assert (rows + extra)[k] == rows[k];
    assert forall j :: 0 <= j < k ==> (rows + extra)[j] == rows[j];
    assert r.Some?;
    assert r.value <= k;
    assert r.value >= k;
  }

  /** Every row names a plan of the catalogue: the one invariant the service
      layer keeps over the table. */
  predicate PlansKnown(rows: seq<Payment>)
  {
    forall i :: 0 <= i < |rows| ==> IsValidSubscriptionType(rows[i].subscriptionType)
  }

  /** The `payments` table, rows in insertion order. */
  class PaymentTable {
    var rows: seq<Payment>

    constructor ()
      ensures rows == []
    {
      rows := [];
    }
  }
}

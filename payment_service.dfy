/** The payment service (app/Services/PaymentService.php): initiation of a
    gateway transaction, verification of its outcome, and the signed
    callback, over the `payments` table and the `users` rows that own it.

    The gateway's HTTP replies, `Str::random` and the keyed HMAC are inputs.
    The state of the tables is described twice: by the functions below on
    plain values (`World`), about which the lemmas speak, and by the methods
    that update the table and user objects in place, each proved to produce
    exactly what its function describes. */
module PaymentService {
  import opened Base
  import opened Plans
  import opened Payments
  import opened Users
  import opened Subscriptions

  const TransactionIdPrefix: string := "GFLIX-"
  /** Length of the `Str::random(20)` suffix. */
  const RandomLength: nat := 20
  /** `gflix.payments.currencies.default`. */
  const DefaultCurrency: string := "XOF"
  /** `payment_method` of every row this service creates. */
  const GatewayMethod: string := "apaym"
  const VerificationResponseKey: string := "verification_response"
  const SuccessStatus: string := "success"

  /** Why an operation threw. */
  datatype PaymentError =
    | InvalidSubscriptionType
    | InitializationFailed
    | PaymentUrlMissing
    | VerificationFailed(cause: VerifyFailure)
    | InvalidCallbackSignature
    | TransactionIdMissing

  datatype VerifyFailure = GatewayRejected | RecordNotFound | StatusMissing

  /** The initiation reply: whether the HTTP call succeeded, the
      `reference` key of its JSON body (read with `?? null`, so an absent key
      is `null`), and its `payment_url` key. */
  datatype InitReply = InitReply(successful: bool, reference: Option<string>, paymentUrl: JsonKey)

  /** The array returned by `initializeTransaction`. */
  datatype InitResult = InitResult(transactionId: string, paymentUrl: Option<string>, amount: nat, currency: string)

  /** The verification reply: whether the HTTP call succeeded, and its
      decoded JSON body. */
  datatype VerifyReply = VerifyReply(successful: bool, data: GatewayData)

  /** The array returned by `verifyTransaction`. */
  datatype VerifyResult = VerifyResult(status: PaymentStatus, transactionId: string, details: map<string, Detail>)

  /** The callback request body: its `transaction_id` (`None` when the key
      is absent) and, if sent, its `signature`. */
  datatype CallbackPayload = CallbackPayload(transactionId: Option<string>, signature: Option<string>)

  /** `generateTransactionId()`: the prefix `GFLIX-` and twenty random
      characters. */
  function GenerateTransactionId(random: string): (id: string)
    requires |random| == RandomLength
    ensures |id| == 26
    ensures id[..6] == TransactionIdPrefix && id[6..] == random
  {
    TransactionIdPrefix + random
  }

  /** Two different random suffixes never give the same id. */
  lemma TransactionIdInjective(random1: string, random2: string)
    requires |random1| == RandomLength && |random2| == RandomLength
    requires GenerateTransactionId(random1) == GenerateTransactionId(random2)
    ensures random1 == random2
  {
    assert random1 == GenerateTransactionId(random1)[6..];
  }

  /** `verifyCallbackSignature($data)`: `hash_equals` of the expected HMAC of
      the transaction id with the sent signature, an absent signature being
      the empty string. `expected` is the keyed HMAC-SHA256 (over the JSON
      encoding of the id), whose hex digest always has 64 characters. An
      absent `transaction_id` throws when it is read (`None` here). */
  function VerifyCallbackSignature(payload: CallbackPayload, expected: string -> string): (ok: Option<bool>)
    requires forall s :: |expected(s)| == 64
    ensures ok.None? <==> payload.transactionId.None?
    ensures ok == Some(true) <==>
      payload.transactionId.Some? && payload.signature == Some(expected(payload.transactionId.value))
  {
    if payload.transactionId.None? then None
    else
      var sent := if payload.signature.Some? then payload.signature.value else "";
      Some(sent == expected(payload.transactionId.value))
  }

  /** The state the service reads and writes: the `payments` rows in
      insertion order and the `users` rows by id. */
  datatype World = World(rows: seq<Payment>, accounts: map<nat, Account>)

  /** What the schema guarantees: every row names a plan of the catalogue
      and an existing owner. */
  predicate Consistent(w: World)
  {
    && PlansKnown(w.rows)
    && forall i :: 0 <= i < |w.rows| ==> w.rows[i].userId in w.accounts
  }

  function DetailOf(s: Option<string>): Detail
  {
    if s.Some? then Text(s.value) else Null
  }

  /** `$data[key] ?? null`: an absent key reads as `null`. */
  function OrNull(k: JsonKey): Option<string>
  {
    if k.Present? then k.value else None
  }

  /** The `pending` row `initializeTransaction` inserts. */
  function PendingRow(userId: nat, planType: string, transactionId: string, reply: InitReply): (p: Payment)
    requires IsValidSubscriptionType(planType)
    ensures p.status == Pending && p.amount == GetSubscriptionPrice(planType).value
    ensures p.userId == userId && p.transactionId == transactionId && p.subscriptionType == planType
    ensures p.subscriptionEndsAt == None
  {
    Payment(userId, Catalogue()[planType].price, Pending, GatewayMethod, transactionId, planType, None,
      map["apaym_reference" := DetailOf(reply.reference), "payment_url" := DetailOf(OrNull(reply.paymentUrl))])
  }

  /** `initializeTransaction($user, $type)`: an unknown plan is refused
      whatever the gateway would answer; a refused initiation leaves the
      table as it was; an accepted one adds exactly one `pending` row. The
      result reports that row's id and amount, unless the reply had no
      `payment_url` key: the row is then already inserted when reading the
      key throws, and the call fails. */
  function Initialize(w: World, userId: nat, planType: string, reply: InitReply, random: string)
    : (o: (World, Result<InitResult, PaymentError>))
    requires |random| == RandomLength
    ensures !IsValidSubscriptionType(planType) ==> o == (w, Failure(InvalidSubscriptionType))
    ensures IsValidSubscriptionType(planType) && !reply.successful ==> o == (w, Failure(InitializationFailed))
    ensures IsValidSubscriptionType(planType) && reply.successful && reply.paymentUrl.Absent? ==>
      o.1 == Failure(PaymentUrlMissing)
    ensures o.1.Success? <==> IsValidSubscriptionType(planType) && reply.successful && reply.paymentUrl.Present?
    ensures IsValidSubscriptionType(planType) && reply.successful ==>
      && o.0.accounts == w.accounts
      && |o.0.rows| == |w.rows| + 1 && o.0.rows[..|w.rows|] == w.rows
      && o.0.rows[|w.rows|].status == Pending
      && o.0.rows[|w.rows|].userId == userId
      && o.0.rows[|w.rows|].subscriptionType == planType
      && o.0.rows[|w.rows|].transactionId == GenerateTransactionId(random)
      && o.0.rows[|w.rows|].amount == GetSubscriptionPrice(planType).value
    ensures o.1.Success? ==>
      && o.1.value.transactionId == GenerateTransactionId(random)
      && o.1.value.amount == GetSubscriptionPrice(planType).value
      && o.1.value.paymentUrl == reply.paymentUrl.value
      && o.1.value.currency == DefaultCurrency
  {
    if !IsValidSubscriptionType(planType) then (w, Failure(InvalidSubscriptionType))
    else
      var transactionId := GenerateTransactionId(random);
      if !reply.successful then (w, Failure(InitializationFailed))
      else
        var p := PendingRow(userId, planType, transactionId, reply);
        if reply.paymentUrl.Absent? then (w.(rows := w.rows + [p]), Failure(PaymentUrlMissing))
        else (w.(rows := w.rows + [p]), Success(InitResult(transactionId, reply.paymentUrl.value, p.amount, DefaultCurrency)))
  }

  /** The stored status a verification reply with a `status` key leads
      to: `completed` exactly for the string `success`. */
  function GatewayOutcome(data: GatewayData): (s: PaymentStatus)
    ensures s == Completed <==> data.status == Present(Some(SuccessStatus))
    ensures s != Pending
  {
    if data.status == Present(Some(SuccessStatus)) then Completed else Failed
  }

  /** `verifyTransaction($transactionId)`, as the code does it: the gateway
      is asked first, then the first row with that id is looked up; its
      status is overwritten from the reply whatever it was before, the reply
      is merged into its details under `verification_response`, and on
      `success` the owner's subscription is activated, which inserts a
      further completed row with the same transaction id. A reply without a
      `status` key throws when the key is read, before anything is saved. */
  function Verify(w: World, transactionId: string, reply: VerifyReply, now: Instant)
    : (o: (World, Result<VerifyResult, PaymentError>))
    requires Consistent(w)
    ensures o.1.Failure? <==>
      !reply.successful || FirstWithTransactionId(w.rows, transactionId).None? || reply.data.status.Absent?
    ensures !reply.successful ==> o.1 == Failure(VerificationFailed(GatewayRejected))
    ensures reply.successful && FirstWithTransactionId(w.rows, transactionId).None? ==>
      o.1 == Failure(VerificationFailed(RecordNotFound))
    ensures reply.successful && FirstWithTransactionId(w.rows, transactionId).Some? && reply.data.status.Absent? ==>
      o.1 == Failure(VerificationFailed(StatusMissing))
    ensures o.1.Failure? ==> o.0 == w
    ensures o.1.Success? ==> o.1.value.status == GatewayOutcome(reply.data) && o.1.value.transactionId == transactionId
    ensures Consistent(o.0) && o.0.accounts.Keys == w.accounts.Keys
    ensures |o.0.rows| == |w.rows| + (if o.1.Success? && o.1.value.status == Completed then 1 else 0)
    ensures forall j :: 0 <= j < |w.rows| && o.0.rows[j] != w.rows[j] ==>
      o.1.Success? && j == FirstWithTransactionId(w.rows, transactionId).value
  {
    if !reply.successful then (w, Failure(VerificationFailed(GatewayRejected)))
    else match FirstWithTransactionId(w.rows, transactionId)
      case None => (w, Failure(VerificationFailed(RecordNotFound)))
      case Some(i) =>
        if reply.data.status.Absent? then (w, Failure(VerificationFailed(StatusMissing)))
        else
        var p := w.rows[i];
        var details := p.details[VerificationResponseKey := Gateway(reply.data)];
        var status := GatewayOutcome(reply.data);
        var rows := w.rows[i := p.(status := status, details := details)];
        if status == Completed then
          var activation := ActivationRow(p.userId, p.subscriptionType, p.paymentMethod, p.transactionId, now);
          (World(rows + [activation], w.accounts[p.userId := Activated(w.accounts[p.userId])]),
           Success(VerifyResult(Completed, transactionId, details)))
        else
          (w.(rows := rows), Success(VerifyResult(Failed, transactionId, details)))
  }

  /** `handleCallback($data)`: a body without `transaction_id` throws while
      the signature is checked; a bad signature is refused before anything
      else; a good one delegates to verification of the named id. */
  function HandleCallback(w: World, payload: CallbackPayload, expected: string -> string, reply: VerifyReply, now: Instant)
    : (o: (World, Result<VerifyResult, PaymentError>))
    requires Consistent(w)
    requires forall s :: |expected(s)| == 64
    ensures payload.transactionId.None? ==> o == (w, Failure(TransactionIdMissing))
    ensures payload.transactionId.Some? && payload.signature != Some(expected(payload.transactionId.value)) ==>
      o == (w, Failure(InvalidCallbackSignature))
    ensures payload.transactionId.Some? && payload.signature == Some(expected(payload.transactionId.value)) ==>
      o == Verify(w, payload.transactionId.value, reply, now)
  {
    match VerifyCallbackSignature(payload, expected)
    case None => (w, Failure(TransactionIdMissing))
    case Some(ok) =>
      if !ok then (w, Failure(InvalidCallbackSignature))
      else Verify(w, payload.transactionId.value, reply, now)
  }

  // ---------------------------------------------------------------------
  // Properties of the ledger protocol

  /** The first row of an id depends on the ids of the rows only. */
  lemma {:induction false} FirstWithTransactionIdSameIds(rows1: seq<Payment>, rows2: seq<Payment>, transactionId: string)
    requires |rows1| == |rows2|
    requires forall j :: 0 <= j < |rows1| ==> rows1[j].transactionId == rows2[j].transactionId
    ensures FirstWithTransactionId(rows1, transactionId) == FirstWithTransactionId(rows2, transactionId)
  {
    var r1 := FirstWithTransactionId(rows1, transactionId);
    var r2 := FirstWithTransactionId(rows2, transactionId);
    if r1.Some? && r2.Some? {
      assert !(r1.value < r2.value);
      assert !(r2.value < r1.value);
    }
  }

  /** The outcome of a verification depends on the gateway's reply and not
      on the row's prior status: a `completed` or `failed` row is handled
      exactly like a `pending` one once the gateway has answered with a
      status. There is no terminal state. */
  lemma VerifyIgnoresPriorStatus(w: World, transactionId: string, reply: VerifyReply, now: Instant, prior: PaymentStatus)
    requires Consistent(w) && reply.successful && reply.data.status.Present?
    requires FirstWithTransactionId(w.rows, transactionId).Some?
    ensures var i := FirstWithTransactionId(w.rows, transactionId).value;
      var w' := w.(rows := w.rows[i := w.rows[i].(status := prior)]);
      Consistent(w') && Verify(w', transactionId, reply, now) == Verify(w, transactionId, reply, now)
  {
    var i := FirstWithTransactionId(w.rows, transactionId).value;
    var w' := w.(rows := w.rows[i := w.rows[i].(status := prior)]);
    FirstWithTransactionIdSameIds(w.rows, w'.rows, transactionId);
    var d := w.rows[i].details[VerificationResponseKey := Gateway(reply.data)];
    var s := GatewayOutcome(reply.data);
    assert w'.rows[i := w'.rows[i].(status := s, details := d)] == w.rows[i := w.rows[i].(status := s, details := d)];
  }

  /** A successful verification marks the first row of the id `completed`,
      keeps every earlier key of its details and stores the latest reply
      under `verification_response`, appends the activation row (same id,
      completed, end date from the plan) and activates the owner. */
  lemma VerifySuccessEffect(w: World, transactionId: string, reply: VerifyReply, now: Instant)
    requires Consistent(w)
    requires reply.successful && reply.data.status == Present(Some(SuccessStatus))
    requires FirstWithTransactionId(w.rows, transactionId).Some?
    ensures var i := FirstWithTransactionId(w.rows, transactionId).value;
      var p := w.rows[i];
      var (w', r) := Verify(w, transactionId, reply, now);
      && w'.rows[i].status == Completed
      && w'.rows[i].details.Keys == p.details.Keys + {VerificationResponseKey}
      && (forall k :: k in p.details && k != VerificationResponseKey ==> w'.rows[i].details[k] == p.details[k])
      && w'.rows[i].details[VerificationResponseKey] == Gateway(reply.data)
      && w'.rows[i] == p.(status := Completed, details := w'.rows[i].details)
      && w'.rows[|w.rows|] == ActivationRow(p.userId, p.subscriptionType, p.paymentMethod, transactionId, now)
      && w'.accounts == w.accounts[p.userId := Activated(w.accounts[p.userId])]
      && r == Success(VerifyResult(Completed, transactionId, w'.rows[i].details))
  {
  }

  /** Any other gateway status marks the first row of the id `failed`, even
      a row that was `completed`, and activates nothing. */
  lemma VerifyFailureEffect(w: World, transactionId: string, reply: VerifyReply, now: Instant)
    requires Consistent(w)
    requires reply.successful && reply.data.status.Present? && reply.data.status != Present(Some(SuccessStatus))
    requires FirstWithTransactionId(w.rows, transactionId).Some?
    ensures var i := FirstWithTransactionId(w.rows, transactionId).value;
      var (w', r) := Verify(w, transactionId, reply, now);
      && w'.rows == w.rows[i := w.rows[i].(status := Failed, details := w'.rows[i].details)]
      && w'.rows[i].details == w.rows[i].details[VerificationResponseKey := Gateway(reply.data)]
      && w'.accounts == w.accounts
      && r.Success? && r.value.status == Failed
  {
  }

  /** Verifying the same id twice with a `success` reply activates twice:
      the first row stays the one found, and two activation rows carrying
      the same transaction id are appended, one per call. Nothing makes the
      activation happen only once. */
  lemma RepeatedSuccessReactivates(w: World, transactionId: string, reply: VerifyReply, now1: Instant, now2: Instant)
    requires Consistent(w)
    requires reply.successful && reply.data.status == Present(Some(SuccessStatus))
    requires FirstWithTransactionId(w.rows, transactionId).Some?
    ensures var i := FirstWithTransactionId(w.rows, transactionId).value;
      var p := w.rows[i];
      var w1 := Verify(w, transactionId, reply, now1).0;
      var w2 := Verify(w1, transactionId, reply, now2).0;
      && |w2.rows| == |w.rows| + 2
      && w2.rows[i].status == Completed
      && w2.rows[|w.rows|] == ActivationRow(p.userId, p.subscriptionType, p.paymentMethod, transactionId, now1)
      && w2.rows[|w.rows| + 1] == ActivationRow(p.userId, p.subscriptionType, p.paymentMethod, transactionId, now2)
      && w2.rows[|w.rows|].transactionId == w2.rows[|w.rows| + 1].transactionId == transactionId
      && w2.accounts == w.accounts[p.userId := Activated(w.accounts[p.userId])]
  {
    var i := FirstWithTransactionId(w.rows, transactionId).value;
    var p := w.rows[i];
    var w1 := Verify(w, transactionId, reply, now1).0;
    var rowsI := w.rows[i := w1.rows[i]];
    FirstWithTransactionIdSameIds(w.rows, rowsI, transactionId);
    FirstWithTransactionIdStable(rowsI, [w1.rows[|w.rows|]], transactionId);
    assert w1.rows == rowsI + [w1.rows[|w.rows|]];
    assert FirstWithTransactionId(w1.rows, transactionId) == Some(i);
  }

  /** After a successful verification, a later non-success reply for the
      same id turns the completed row into `failed`; the activation row, the
      subscription flag and the retired trial stay as they were. */
  lemma CompletedRowCanBecomeFailed(w: World, transactionId: string, ok: VerifyReply, bad: VerifyReply, now1: Instant, now2: Instant)
    requires Consistent(w)
    requires ok.successful && ok.data.status == Present(Some(SuccessStatus))
    requires bad.successful && bad.data.status.Present? && bad.data.status != Present(Some(SuccessStatus))
    requires FirstWithTransactionId(w.rows, transactionId).Some?
    ensures var i := FirstWithTransactionId(w.rows, transactionId).value;
      var p := w.rows[i];
      var w1 := Verify(w, transactionId, ok, now1).0;
      var w2 := Verify(w1, transactionId, bad, now2).0;
      && w1.rows[i].status == Completed
      && w2.rows[i].status == Failed
      && |w2.rows| == |w.rows| + 1
      && w2.rows[|w.rows|] == ActivationRow(p.userId, p.subscriptionType, p.paymentMethod, transactionId, now1)
      && w2.accounts == w1.accounts
      && w2.accounts[p.userId].activeSubscriptions
  {
    var i := FirstWithTransactionId(w.rows, transactionId).value;
    var w1 := Verify(w, transactionId, ok, now1).0;
    var rowsI := w.rows[i := w1.rows[i]];
    FirstWithTransactionIdSameIds(w.rows, rowsI, transactionId);
    FirstWithTransactionIdStable(rowsI, [w1.rows[|w.rows|]], transactionId);
    assert w1.rows == rowsI + [w1.rows[|w.rows|]];
    assert FirstWithTransactionId(w1.rows, transactionId) == Some(i);
  }

  /** A purchase from initiation to a successful verification, with a
      random suffix no earlier row used: the new row is the one verified
      (also when initiation failed for want of a `payment_url`, since the row
      was inserted before),
      it ends up `completed`, an activation row follows it, and the owner has
      access from then on whatever the clock says. */
  lemma PurchaseLifecycle(w: World, userId: nat, planType: string, initReply: InitReply, random: string,
                          reply: VerifyReply, now: Instant)
    requires Consistent(w) && userId in w.accounts
    requires |random| == RandomLength
    requires IsValidSubscriptionType(planType) && initReply.successful
    requires reply.successful && reply.data.status == Present(Some(SuccessStatus))
    requires forall j :: 0 <= j < |w.rows| ==> w.rows[j].transactionId != GenerateTransactionId(random)
    ensures var (w1, r1) := Initialize(w, userId, planType, initReply, random);
      var (w2, r2) := Verify(w1, GenerateTransactionId(random), reply, now);
      && (r1.Success? <==> initReply.paymentUrl.Present?)
      && Consistent(w1)
      && r2.Success? && r2.value.status == Completed
      && |w2.rows| == |w.rows| + 2
      && w2.rows[..|w.rows|] == w.rows
      && w2.rows[|w.rows|].status == Completed
      && w2.rows[|w.rows| + 1] == ActivationRow(userId, planType, GatewayMethod, GenerateTransactionId(random), now)
      && w2.accounts[userId].trialEndsAt == None
      && forall t :: HasActiveSubscription(w2.accounts[userId], t)
  {
    var (w1, r1) := Initialize(w, userId, planType, initReply, random);
    var id := GenerateTransactionId(random);
    assert w1.rows == w.rows + [w1.rows[|w.rows|]];
    assert forall j :: 0 <= j < |w.rows| ==> w1.rows[j].transactionId != id;
    assert FirstWithTransactionId(w1.rows, id) == Some(|w.rows|);
    var (w2, r2) := Verify(w1, id, reply, now);
    assert w2.rows[..|w.rows|] == w.rows;
  }

  /** A callback without a transaction id, or whose signature is not the
      expected one, fails and changes nothing. */
  lemma TamperedCallbackChangesNothing(w: World, payload: CallbackPayload, expected: string -> string,
                                       reply: VerifyReply, now: Instant)
    requires Consistent(w)
    requires forall s :: |expected(s)| == 64
    requires payload.transactionId.None? || payload.signature != Some(expected(payload.transactionId.value))
    ensures HandleCallback(w, payload, expected, reply, now).0 == w
    ensures HandleCallback(w, payload, expected, reply, now).1.Failure?
  {
  }

  // ---------------------------------------------------------------------
  // The service methods, on the table and user objects

  /** The `users` rows by id, each object holding its own id. */
  predicate Registry(users: map<nat, User>)
  {
    forall id :: id in users ==> users[id].id == id
  }

  /** The column values of every user in the map. */
  function Snapshots(users: map<nat, User>): (m: map<nat, Account>)
    reads users.Values
    ensures m.Keys == users.Keys
  {
    map id | id in users :: users[id].Snapshot()
  }

  /** `initializeTransaction`, against `Initialize`. */
  method InitializeTransaction(table: PaymentTable, user: User, planType: string, reply: InitReply, random: string)
    returns (r: Result<InitResult, PaymentError>)
    requires |random| == RandomLength
    modifies table
    ensures var w := World(old(table.rows), map[]);
      (World(table.rows, map[]), r) == Initialize(w, user.id, planType, reply, random)
    ensures PlansKnown(old(table.rows)) ==> PlansKnown(table.rows)
  {
    if !IsValidSubscriptionType(planType) {
      return Failure(InvalidSubscriptionType);
    }
    var amount := GetSubscriptionPrice(planType).value;
    var transactionId := GenerateTransactionId(random);
    if !reply.successful {
      return Failure(InitializationFailed);
    }
    var p := Payment(user.id, amount, Pending, GatewayMethod, transactionId, planType, None,
      map["apaym_reference" := DetailOf(reply.reference), "payment_url" := DetailOf(OrNull(reply.paymentUrl))]);
    table.rows := table.rows + [p];
    if reply.paymentUrl.Absent? {
      return Failure(PaymentUrlMissing);
    }
    r := Success(InitResult(transactionId, reply.paymentUrl.value, amount, DefaultCurrency));
  }

  /** `verifyTransaction`, against `Verify`: the table and the owner's row
      end up exactly as `Verify` describes, and no other user changes. */
  method VerifyTransaction(table: PaymentTable, users: map<nat, User>, transactionId: string, reply: VerifyReply, now: Instant)
    returns (r: Result<VerifyResult, PaymentError>)
    requires Registry(users)
    requires Consistent(World(table.rows, Snapshots(users)))
    modifies table, users.Values
    ensures (World(table.rows, Snapshots(users)), r)
      == Verify(old(World(table.rows, Snapshots(users))), transactionId, reply, now)
  {
    ghost var w := World(table.rows, Snapshots(users));
    if !reply.successful {
      return Failure(VerificationFailed(GatewayRejected));
    }
    var found := FirstWithTransactionId(table.rows, transactionId);
    if found.None? {
      return Failure(VerificationFailed(RecordNotFound));
    }
    var i := found.value;
    if reply.data.status.Absent? {
      return Failure(VerificationFailed(StatusMissing));
    }
    var p := table.rows[i];
    var details := p.details[VerificationResponseKey := Gateway(reply.data)];
    if reply.data.status == Present(Some(SuccessStatus)) {
      table.rows := table.rows[i := p.(status := Completed, details := details)];
      var owner := users[p.userId];
      assert p.userId in w.accounts;
      ghost var rowsI := table.rows;
      var activation := ActivateSubscription(owner, table, p.subscriptionType, p.paymentMethod, p.transactionId, now);
      assert table.rows == rowsI + [ActivationRow(p.userId, p.subscriptionType, p.paymentMethod, p.transactionId, now)];
      ghost var accounts := w.accounts[p.userId := Activated(w.accounts[p.userId])];
      forall id | id in users
        ensures Snapshots(users)[id] == accounts[id]
      {
        if id != p.userId {
          assert users[id] != owner;
        }
      }
      assert Snapshots(users) == accounts;
      r := Success(VerifyResult(Completed, transactionId, details));
    } else {
      table.rows := table.rows[i := p.(status := Failed, details := details)];
      r := Success(VerifyResult(Failed, transactionId, details));
    }
  }

  /** `handleCallback`, against `HandleCallback`. */
  method HandleCallbackRequest(table: PaymentTable, users: map<nat, User>, payload: CallbackPayload,
                               expected: string -> string, reply: VerifyReply, now: Instant)
    returns (r: Result<VerifyResult, PaymentError>)
    requires Registry(users)
    requires Consistent(World(table.rows, Snapshots(users)))
    requires forall s :: |expected(s)| == 64
    modifies table, users.Values
    ensures (World(table.rows, Snapshots(users)), r)
      == HandleCallback(old(World(table.rows, Snapshots(users))), payload, expected, reply, now)
  {
    var ok := VerifyCallbackSignature(payload, expected);
    if ok.None? {
      return Failure(TransactionIdMissing);
    }
    if !ok.value {
      return Failure(InvalidCallbackSignature);
    }
    r := VerifyTransaction(table, users, payload.transactionId.value, reply, now);
  }
}

/** The `User` model (app/Models/User.php): the account columns the core
    reads and writes, its entitlement and device predicates, and the
    methods that update the device counter and the admin flag in place. */
module Users {
  import opened Base

  datatype AccountStatus = Active | Inactive | Suspended

  /** The columns of a `users` row that the core uses. `isAdmin` is a
      nullable boolean column; `email` and `googleId` identify the account
      for the Google sign-in lookup. */
  datatype Account = Account(
    email: string,
    googleId: Option<string>,
    status: AccountStatus,
    activeSubscriptions: bool,
    trialEndsAt: Option<Instant>,
    connectedDevicesCount: int,
    isAdmin: Option<bool>)

  /** The device limit is the literal 2 in both device methods. */
  const MaxDevices: int := 2

  /** The column defaults of the `users` migration (status `active`,
      `active_subscriptions` false, `connected_devices_count` 0, no trial);
      the admin flag is left unset. */
  function NewAccount(email: string, googleId: Option<string>): (a: Account)
    ensures a.status == Active && !a.activeSubscriptions
    ensures a.connectedDevicesCount == 0 && a.trialEndsAt == None && a.isAdmin == None
  {
    Account(email, googleId, Active, false, None, 0, None)
  }

  /** `hasActiveSubscription()`: the subscription flag, or a trial end that
      is set and strictly in the future. Payments are not consulted. */
  function HasActiveSubscription(a: Account, now: Instant): (r: bool)
    ensures a.activeSubscriptions ==> r
    ensures a.trialEndsAt.None? ==> (r <==> a.activeSubscriptions)
    ensures a.trialEndsAt.Some? && a.trialEndsAt.value <= now ==> (r <==> a.activeSubscriptions)
    ensures a.trialEndsAt.Some? && a.trialEndsAt.value > now ==> r
  {
    a.activeSubscriptions || SetAndFuture(a.trialEndsAt, now)
  }

  /** `canConnectNewDevice()`: exactly when `incrementConnectedDevices()`
      would add a device rather than throw. */
  function CanConnectNewDevice(a: Account): (r: bool)
    ensures r <==> CountAfterIncrement(a.connectedDevicesCount) == a.connectedDevicesCount + 1
  {
    a.connectedDevicesCount < MaxDevices
  }

  /** `isAdmin()`: `is_admin === true`, so an unset flag is not admin. */
  function IsAdmin(a: Account): (r: bool)
    ensures a.isAdmin == None ==> !r
    ensures a.isAdmin == Some(false) ==> !r
    ensures a.isAdmin == Some(true) ==> r
  {
    a.isAdmin == Some(true)
  }

  /** The counter after `incrementConnectedDevices()`: unchanged when the
      limit is reached (the method throws), one more otherwise. */
  function CountAfterIncrement(count: int): (r: int)
    ensures count >= MaxDevices ==> r == count
    ensures count < MaxDevices ==> r == count + 1
    ensures count <= MaxDevices ==> r <= MaxDevices
  {
    if count >= MaxDevices then count else count + 1
  }

  /** The counter after `decrementConnectedDevices()`: one less when
      positive, otherwise unchanged. */
  function CountAfterDecrement(count: int): (r: int)
    ensures count > 0 ==> r == count - 1
    ensures count <= 0 ==> r == count
    ensures count >= 0 ==> r >= 0
  {
    if count > 0 then count - 1 else count
  }

  datatype CounterOp = Increment | Decrement

  function ApplyCounterOp(count: int, op: CounterOp): int
  {
    match op
    case Increment => CountAfterIncrement(count)
    case Decrement => CountAfterDecrement(count)
  }

  /** The counter after a sequence of device operations, in order. */
  function ApplyCounterOps(count: int, ops: seq<CounterOp>): int
    decreases |ops|
  {
    if ops == [] then count else ApplyCounterOps(ApplyCounterOp(count, ops[0]), ops[1..])
  }

  /** Starting anywhere in [0, 2] (the column default 0 included), any
      sequence of increments and decrements keeps the counter in [0, 2]. */
  lemma {:induction false} CounterStaysInRange(count: int, ops: seq<CounterOp>)
    requires 0 <= count <= MaxDevices
    ensures 0 <= ApplyCounterOps(count, ops) <= MaxDevices
    decreases |ops|
  {
    if ops != [] {
      CounterStaysInRange(ApplyCounterOp(count, ops[0]), ops[1..]);
    }
  }

  /** After as many increments as there are slots, a further increment is
      refused: from the default 0 two increments fill the slots. */
  lemma {:induction false} CounterSaturatesAtLimit(ops: seq<CounterOp>)
    requires forall i :: 0 <= i < |ops| ==> ops[i] == Increment
    ensures ApplyCounterOps(0, ops) == if |ops| < MaxDevices then |ops| else MaxDevices
  {
    var k := |ops|;
    var c := 0;
    var i := 0;
    while i < k
      invariant 0 <= i <= k
      invariant c == (if i < MaxDevices then i else MaxDevices)
      invariant ApplyCounterOps(0, ops) == ApplyCounterOps(c, ops[i..])
    {
      assert ops[i..][0] == Increment;
      assert ops[i..][1..] == ops[i + 1..];
      c := CountAfterIncrement(c);
      i := i + 1;
    }
    assert ops[k..] == [];
  }

  /** A `users` row as an Eloquent model object: its methods update the
      fields in place and save. */
  class User {
    const id: nat
    var email: string
    var googleId: Option<string>
    var status: AccountStatus
    var activeSubscriptions: bool
    var trialEndsAt: Option<Instant>
    var connectedDevicesCount: int
    var isAdmin: Option<bool>

    /** The row's current column values. */
    function Snapshot(): Account
      reads this
    {
      Account(email, googleId, status, activeSubscriptions, trialEndsAt, connectedDevicesCount, isAdmin)
    }

    /** `User::create([...])` with the given column values and a new id. */
    constructor (id: nat, a: Account)
      ensures this.id == id && Snapshot() == a
    {
      this.id := id;
      email := a.email;
      googleId := a.googleId;
      status := a.status;
      activeSubscriptions := a.activeSubscriptions;
      trialEndsAt := a.trialEndsAt;
      connectedDevicesCount := a.connectedDevicesCount;
      isAdmin := a.isAdmin;
    }

    /** `incrementConnectedDevices()`: throws "Maximum device limit reached"
        (here: `ok` false) without change when two devices are connected,
        otherwise adds exactly one. */
    method IncrementConnectedDevices() returns (ok: bool)
      modifies this
      ensures ok <==> old(connectedDevicesCount) < MaxDevices
      ensures ok ==> connectedDevicesCount == old(connectedDevicesCount) + 1
      ensures !ok ==> connectedDevicesCount == old(connectedDevicesCount)
      ensures Snapshot() == old(Snapshot()).(connectedDevicesCount := CountAfterIncrement(old(connectedDevicesCount)))
    {
      if connectedDevicesCount >= MaxDevices {
        return false;
      }
      connectedDevicesCount := connectedDevicesCount + 1;
      ok := true;
    }

    /** `decrementConnectedDevices()`: one less when positive, a no-op at
        zero. */
    method DecrementConnectedDevices()
      modifies this
      ensures old(connectedDevicesCount) > 0 ==> connectedDevicesCount == old(connectedDevicesCount) - 1
      ensures old(connectedDevicesCount) <= 0 ==> connectedDevicesCount == old(connectedDevicesCount)
      ensures Snapshot() == old(Snapshot()).(connectedDevicesCount := CountAfterDecrement(old(connectedDevicesCount)))
    {
      if connectedDevicesCount > 0 {
        connectedDevicesCount := connectedDevicesCount - 1;
      }
    }

    /** `makeAdmin()`: sets the flag to true and nothing else. */
    method MakeAdmin()
      modifies this
      ensures IsAdmin(Snapshot())
      ensures Snapshot() == old(Snapshot()).(isAdmin := Some(true))
    {
      isAdmin := Some(true);
    }

    /** `removeAdmin()`: sets the flag to false and nothing else. */
    method RemoveAdmin()
      modifies this
      ensures !IsAdmin(Snapshot())
      ensures Snapshot() == old(Snapshot()).(isAdmin := Some(false))
    {
      isAdmin := Some(false);
    }
  }

  /** The row condition of `scopeWithActiveSubscription` as the query writes
      it: `active_subscriptions = true OR (trial_ends_at IS NOT NULL AND
      trial_ends_at > now)`. */
  predicate InActiveSubscriptionScope(activeSubscriptions: bool, trialEndsAt: Option<Instant>, now: Instant)
  {
    activeSubscriptions == true || (trialEndsAt != None && trialEndsAt.value > now)
  }

  /** `scopeWithActiveSubscription`: selects, in order, exactly the users for
      which `hasActiveSubscription()` holds at the same instant. */
  function ScopeWithActiveSubscription(users: seq<User>, now: Instant): (r: seq<User>)
    reads users
    ensures |r| <= |users|
    ensures forall i :: 0 <= i < |r| ==> r[i] in users && HasActiveSubscription(r[i].Snapshot(), now)
    ensures forall i :: 0 <= i < |users| ==> (users[i] in r <==> HasActiveSubscription(users[i].Snapshot(), now))
  {
    if users == [] then []
    else
      var rest := ScopeWithActiveSubscription(users[1..], now);
      if InActiveSubscriptionScope(users[0].activeSubscriptions, users[0].trialEndsAt, now)
      then [users[0]] + rest
      else rest
  }
}

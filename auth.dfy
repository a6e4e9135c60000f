/** The decision sequence of the authentication controller
    (app/Http/Controllers/Api/AuthController.php): which account `register`
    and the Google sign-in create, the order of the checks `login` and the
    Google callback apply, and what they do to the device counter. The
    credential check, the Google lookup and the JWT guard are inputs. */
module Auth {
  import opened Base
  import opened Users

  /** The free trial both sign-up paths grant, hard-coded as 24 hours. */
  const TrialHours: int := 24

  /** The account `register` creates: the column defaults, status `active`,
      and a trial ending 24 hours from now, so the account has access for
      exactly those 24 hours and no device counted. */
  function RegisteredAccount(email: string, now: Instant): (a: Account)
    ensures a.status == Active && !a.activeSubscriptions && a.connectedDevicesCount == 0
    ensures a.trialEndsAt == Some(now + 86400) && a.googleId == None
    ensures forall t :: HasActiveSubscription(a, t) <==> t < now + 86400
  {
    NewAccount(email, None).(trialEndsAt := Some(AddHours(now, TrialHours)))
  }

  /** `register`: creates the row. The token it returns is not counted as a
      device. */
  method Register(id: nat, email: string, now: Instant) returns (u: User)
    ensures fresh(u) && u.id == id && u.Snapshot() == RegisteredAccount(email, now)
  {
    u := new User(id, RegisteredAccount(email, now));
  }

  datatype LoginOutcome = InvalidCredentials | AccountNotActive | DeviceLimitReached | LoggedIn

  /** The checks of `login`, in order, on the account the credentials
      matched (none when they matched nothing): the status check comes before
      the device check, and only an active account with a free slot logs in. */
  function LoginDecision(a: Option<Account>): (o: LoginOutcome)
    ensures o == InvalidCredentials <==> a.None?
    ensures a.Some? && a.value.status != Active ==> o == AccountNotActive
    ensures o == DeviceLimitReached <==> a.Some? && a.value.status == Active && !CanConnectNewDevice(a.value)
    ensures o == LoggedIn <==> a.Some? && a.value.status == Active && CanConnectNewDevice(a.value)
  {
    if a.None? then InvalidCredentials
    else if a.value.status != Active then AccountNotActive
    else if !CanConnectNewDevice(a.value) then DeviceLimitReached
    else LoggedIn
  }

  /** The account after a login attempt: one more device when it logged in,
      otherwise unchanged. */
  function AfterLogin(a: Account): (r: Account)
    ensures LoginDecision(Some(a)) == LoggedIn ==>
      r == a.(connectedDevicesCount := a.connectedDevicesCount + 1) && r.connectedDevicesCount <= MaxDevices
    ensures LoginDecision(Some(a)) != LoggedIn ==> r == a
  {
    if LoginDecision(Some(a)) == LoggedIn then a.(connectedDevicesCount := CountAfterIncrement(a.connectedDevicesCount))
    else a
  }

  /** The account the attempt matched, as it currently is. */
  function SnapshotOf(u: Option<User>): Option<Account>
    reads if u.Some? then {u.value} else {}
  {
    if u.Some? then Some(u.value.Snapshot()) else None
  }

  /** `login`: refusals change nothing; a successful login increments the
      device counter once. */
  method Login(attempt: Option<User>) returns (o: LoginOutcome)
    modifies if attempt.Some? then {attempt.value} else {}
    ensures o == LoginDecision(old(SnapshotOf(attempt)))
    ensures attempt.Some? ==> attempt.value.Snapshot() == AfterLogin(old(attempt.value.Snapshot()))
  {
    if attempt.None? {
      return InvalidCredentials;
    }
    var user := attempt.value;
    if user.status != Active {
      return AccountNotActive;
    }
    if !CanConnectNewDevice(user.Snapshot()) {
      return DeviceLimitReached;
    }
    var _ := user.IncrementConnectedDevices();
    o := LoggedIn;
  }

  /** `logout`: one device less, never below zero. */
  method Logout(user: User)
    modifies user
    ensures user.Snapshot() == old(user.Snapshot()).(connectedDevicesCount := CountAfterDecrement(old(user.connectedDevicesCount)))
  {
    user.DecrementConnectedDevices();
  }

  /** PHP truthiness of a nullable string column. */
  predicate Truthy(s: Option<string>)
  {
    s.Some? && s.value != "" && s.value != "0"
  }

  /** The account the Google callback creates when the lookup finds none:
      the registration defaults with the Google id. */
  function GoogleAccount(email: string, googleId: string, now: Instant): (a: Account)
    ensures a.email == email && a.googleId == Some(googleId)
    ensures a.status == Active && !a.activeSubscriptions && a.connectedDevicesCount == 0
    ensures forall t :: HasActiveSubscription(a, t) <==> t < now + 86400
  {
    RegisteredAccount(email, now).(googleId := Some(googleId))
  }

  /** `googleCallback` on the account the lookup by Google id or email
      found: create it when missing, link the Google id when it has none,
      then the same status check, device check and increment as `login`. A
      new account always logs in, with one device. */
  function GoogleSignIn(found: Option<Account>, googleId: string, email: string, now: Instant)
    : (o: (Account, LoginOutcome))
    ensures o.1 != InvalidCredentials
    ensures found.None? ==>
      o == (GoogleAccount(email, googleId, now).(connectedDevicesCount := 1), LoggedIn)
    ensures found.Some? ==>
      var linked := if Truthy(found.value.googleId) then found.value.googleId else Some(googleId);
      && o.1 == LoginDecision(found)
      && o.0 == AfterLogin(found.value).(googleId := linked)
  {
    var a :=
      if found.None? then GoogleAccount(email, googleId, now)
      else if !Truthy(found.value.googleId) then found.value.(googleId := Some(googleId))
      else found.value;
    (AfterLogin(a), LoginDecision(Some(a)))
  }

  /** `googleCallback`, against `GoogleSignIn`: the found user is updated in
      place, a missing one is created. */
  method GoogleCallback(found: Option<User>, googleId: string, email: string, newId: nat, now: Instant)
    returns (o: LoginOutcome, u: User)
    modifies if found.Some? then {found.value} else {}
    ensures found.Some? ==> u == found.value
    ensures found.None? ==> fresh(u) && u.id == newId
    ensures (u.Snapshot(), o) == GoogleSignIn(old(SnapshotOf(found)), googleId, email, now)
  {
    if found.None? {
      u := new User(newId, GoogleAccount(email, googleId, now));
    } else {
      u := found.value;
      if !Truthy(u.googleId) {
        u.googleId := Some(googleId);
      }
    }
    if u.status != Active {
      o := AccountNotActive;
      return;
    }
    if !CanConnectNewDevice(u.Snapshot()) {
      o := DeviceLimitReached;
      return;
    }
    var _ := u.IncrementConnectedDevices();
    o := LoggedIn;
  }

  // ---------------------------------------------------------------------
  // Sessions

  /** A login (by password or by Google, which act alike on the counter)
      or a logout. */
  datatype SessionEvent = SignIn | SignOut

  function ApplySession(a: Account, ev: SessionEvent): Account
  {
    match ev
    case SignIn => AfterLogin(a)
    case SignOut => a.(connectedDevicesCount := CountAfterDecrement(a.connectedDevicesCount))
  }

  function ApplySessions(a: Account, evs: seq<SessionEvent>): Account
    decreases |evs|
  {
    if evs == [] then a else ApplySessions(ApplySession(a, evs[0]), evs[1..])
  }

  /** Any sequence of logins and logouts from a counter in [0, 2] (the
      default 0 included) keeps it in [0, 2], and changes nothing but the
      counter. */
  lemma {:induction false} SessionsKeepDevicesInRange(a: Account, evs: seq<SessionEvent>)
    requires 0 <= a.connectedDevicesCount <= MaxDevices
    ensures 0 <= ApplySessions(a, evs).connectedDevicesCount <= MaxDevices
    ensures ApplySessions(a, evs) == a.(connectedDevicesCount := ApplySessions(a, evs).connectedDevicesCount)
    decreases |evs|
  {
    if evs != [] {
      SessionsKeepDevicesInRange(ApplySession(a, evs[0]), evs[1..]);
    }
  }

  function CounterOpOf(ev: SessionEvent): CounterOp
  {
    match ev
    case SignIn => Increment
    case SignOut => Decrement
  }

  function CounterOpsOf(evs: seq<SessionEvent>): (ops: seq<CounterOp>)
    ensures |ops| == |evs|
    ensures forall i :: 0 <= i < |evs| ==> ops[i] == CounterOpOf(evs[i])
  {
    if evs == [] then [] else [CounterOpOf(evs[0])] + CounterOpsOf(evs[1..])
  }

  /** For an active account, a login is exactly the model's guarded
      increment and a logout its floored decrement: the login's device check
      is what keeps `incrementConnectedDevices` from ever refusing. */
  lemma {:induction false} SessionsAreCounterOps(a: Account, evs: seq<SessionEvent>)
    requires a.status == Active
    ensures ApplySessions(a, evs).connectedDevicesCount == ApplyCounterOps(a.connectedDevicesCount, CounterOpsOf(evs))
    decreases |evs|
  {
    if evs != [] {
      var next := ApplySession(a, evs[0]);
      assert next.status == Active;
      assert CounterOpsOf(evs)[1..] == CounterOpsOf(evs[1..]);
      SessionsAreCounterOps(next, evs[1..]);
    }
  }

  /** A suspended or inactive account never gains a device, whatever it
      tries. */
  lemma {:induction false} InactiveAccountsGainNoDevice(a: Account, evs: seq<SessionEvent>)
    requires a.status != Active
    ensures ApplySessions(a, evs).connectedDevicesCount <= a.connectedDevicesCount
    ensures ApplySessions(a, evs).status == a.status
    decreases |evs|
  {
    if evs != [] {
      InactiveAccountsGainNoDevice(ApplySession(a, evs[0]), evs[1..]);
    }
  }
}

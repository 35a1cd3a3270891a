/**
 * The devices an account may use encryption on (apps/api/src/db/e2ee.ts and
 * apps/api/src/e2ee/e2ee.service.ts): ten at a time, where one that has been quiet for a month does
 * not count, and comes back only if there is room.
 *
 * Registering and reviving hold a lock per account, so each is one step. A request on behalf of a
 * device first looks at its state; the touch or the revival that follows is a step of its own.
 */
module DeviceCap {
  import opened Common

  type UserId = nat
  type DeviceId = nat
  type OpId = nat

  const MAX_DEVICES := 10
  const HOUR_MS := 3_600_000
  const INACTIVE_MS := 30 * 24 * HOUR_MS

  /** One row of `e2ee_devices`. */
  datatype Device = Device(user: UserId, lastSeen: int, revoked: bool)

  /** What `requireDevice` found, and will act on. */
  datatype Found = Current(device: DeviceId) | Inactive(user: UserId, device: DeviceId)

  datatype State = State(clock: int, devices: map<DeviceId, Device>, found: map<OpId, Found>)

  function Start(clock: int): State {
    State(clock, map[], map[])
  }

  datatype Event =
    | Tick(to: int)
    | Register(user: UserId, device: DeviceId)
    | Require(op: OpId, user: UserId, device: DeviceId)
    | Touch(op: OpId)
    | Revive(op: OpId)
    | Revoke(user: UserId, device: DeviceId)
    | RevokeOthers(user: UserId, keep: DeviceId)

  /** `deviceIsCurrent`. */
  predicate IsCurrent(d: Device, clock: int) {
    !d.revoked && d.lastSeen > clock - INACTIVE_MS
  }

  function CurrentOf(s: State, u: UserId): set<DeviceId> {
    set i | i in s.devices && s.devices[i].user == u && IsCurrent(s.devices[i], s.clock)
  }

  function Seen(s: State, i: DeviceId): map<DeviceId, Device>
    requires i in s.devices
  {
    s.devices[i := s.devices[i].(lastSeen := s.clock)]
  }

  function DoRequire(s: State, op: OpId, u: UserId, i: DeviceId): State {
    if op in s.found || i !in s.devices || s.devices[i].user != u || s.devices[i].revoked then s
    else s.(found := s.found[op := if IsCurrent(s.devices[i], s.clock) then Current(i) else Inactive(u, i)])
  }

  /** `touchDevice`, at most once an hour. */
  function DoTouch(s: State, i: DeviceId): State {
    if i in s.devices && s.devices[i].lastSeen < s.clock - HOUR_MS then s.(devices := Seen(s, i)) else s
  }

  function RevokeWhere(s: State, p: (DeviceId, Device) -> bool): State {
    s.(devices := map i | i in s.devices ::
        if p(i, s.devices[i]) then s.devices[i].(revoked := true) else s.devices[i])
  }

  function Step(s: State, e: Event): State {
    match e
    case Tick(to) => if s.clock <= to then s.(clock := to) else s
    case Register(u, i) =>
      if i in s.devices || |CurrentOf(s, u)| >= MAX_DEVICES then s
      else s.(devices := s.devices[i := Device(u, s.clock, false)])
    case Require(op, u, i) => DoRequire(s, op, u, i)
    case Touch(op) =>
      if op in s.found && s.found[op].Current? then DoTouch(s, s.found[op].device).(found := s.found - {op}) else s
    case Revive(op) =>
      if op !in s.found || !s.found[op].Inactive? then s
      else
        var f := s.found[op];
        var done := s.(found := s.found - {op});
        if f.device !in s.devices || |CurrentOf(s, f.user)| >= MAX_DEVICES then done
        else done.(devices := Seen(s, f.device))
    case Revoke(u, i) => RevokeWhere(s, (j: DeviceId, d: Device) => d.user == u && j == i)
    case RevokeOthers(u, keep) => RevokeWhere(s, (j: DeviceId, d: Device) => d.user == u && j != keep)
  }

  function Run(s: State, events: seq<Event>): State {
    if events == [] then s else Step(Run(s, events[..|events| - 1]), events[|events| - 1])
  }

  // ---- the cap -------------------------------------------------------------------------------------

  ghost predicate WithinCap(s: State) {
    forall u: UserId :: |CurrentOf(s, u)| <= MAX_DEVICES
  }

  /** A revival under way is for a device of the account that is counted. */
  predicate FoundOk(s: State) {
    forall op | op in s.found && s.found[op].Inactive? ::
      s.found[op].device in s.devices && s.devices[s.found[op].device].user == s.found[op].user
  }

  /** The touch of a device that was current when it was looked at, is not any more, and was not removed. */
  predicate LateTouch(s: State, e: Event) {
    && e.Touch? && e.op in s.found && s.found[e.op].Current?
    && s.found[e.op].device in s.devices
    && !s.devices[s.found[e.op].device].revoked
    && s.devices[s.found[e.op].device].lastSeen <= s.clock - INACTIVE_MS
  }

  lemma SmallerSet<T>(a: set<T>, b: set<T>)
    requires a <= b
    ensures |a| <= |b|
  {
    var c := b - a;
    assert b == a + c && a !! c;
  }

  /** Fewer devices are current, of everybody. */
  lemma FewerCurrent(s: State, t: State)
    requires WithinCap(s)
    requires forall u: UserId :: CurrentOf(t, u) <= CurrentOf(s, u)
    ensures WithinCap(t)
  {
    forall u: UserId ensures |CurrentOf(t, u)| <= MAX_DEVICES {
      SmallerSet(CurrentOf(t, u), CurrentOf(s, u));
    }
  }

  /** One device more is current, of an account that has room. */
  lemma OneMoreCurrent(s: State, t: State, owner: UserId, i: DeviceId)
    requires WithinCap(s) && |CurrentOf(s, owner)| < MAX_DEVICES
    requires forall u: UserId :: CurrentOf(t, u) <= if u == owner then CurrentOf(s, u) + {i} else CurrentOf(s, u)
    ensures WithinCap(t)
  {
    forall u: UserId ensures |CurrentOf(t, u)| <= MAX_DEVICES {
      if u == owner {
        SmallerSet(CurrentOf(t, u), CurrentOf(s, u) + {i});
      } else {
        SmallerSet(CurrentOf(t, u), CurrentOf(s, u));
      }
    }
  }

  lemma SeenIn(s: State, t: State, i: DeviceId, u: UserId)
    requires i in s.devices && t.devices == Seen(s, i) && t.clock == s.clock
    ensures CurrentOf(t, u) == if u == s.devices[i].user && !s.devices[i].revoked then CurrentOf(s, u) + {i} else CurrentOf(s, u)
  {
    forall j: DeviceId
      ensures j in CurrentOf(t, u) <==>
                j in CurrentOf(s, u) || (j == i && u == s.devices[i].user && !s.devices[i].revoked)
    {
    }
  }

  lemma TouchKeepsCap(s: State, e: Event)
    requires WithinCap(s) && e.Touch? && !LateTouch(s, e)
    ensures WithinCap(Step(s, e))
  {
    var t := Step(s, e);
    forall u: UserId ensures CurrentOf(t, u) <= CurrentOf(s, u) {
      if t.devices != s.devices {
        SeenIn(s, t, s.found[e.op].device, u);
      }
    }
    FewerCurrent(s, t);
  }

  lemma ReviveKeepsCap(s: State, e: Event)
    requires WithinCap(s) && FoundOk(s) && e.Revive?
    ensures WithinCap(Step(s, e))
  {
    var t := Step(s, e);
    if t.devices != s.devices {
      var f := s.found[e.op];
      forall u: UserId ensures CurrentOf(t, u) <= if u == f.user then CurrentOf(s, u) + {f.device} else CurrentOf(s, u) {
        SeenIn(s, t, f.device, u);
      }
      OneMoreCurrent(s, t, f.user, f.device);
    } else {
      FewerCurrent(s, t);
    }
  }

  lemma StepKeepsCap(s: State, e: Event)
    requires WithinCap(s) && FoundOk(s) && !LateTouch(s, e)
    ensures WithinCap(Step(s, e))
  {
    match e
    case Touch(_) => TouchKeepsCap(s, e);
    case Revive(_) => ReviveKeepsCap(s, e);
    case Register(u, i) =>
      if Step(s, e) != s { OneMoreCurrent(s, Step(s, e), u, i); }
    case _ => FewerCurrent(s, Step(s, e));
  }

  lemma StepKeepsFound(s: State, e: Event)
    requires FoundOk(s)
    ensures FoundOk(Step(s, e))
  {
  }

  /** No touch of the run comes late. */
  predicate NoLateTouch(clock: int, events: seq<Event>) {
    events != [] ==>
      && NoLateTouch(clock, events[..|events| - 1])
      && !LateTouch(Run(Start(clock), events[..|events| - 1]), events[|events| - 1])
  }

  // ---- what holds over every run -------------------------------------------------------------------

  lemma {:induction false} FoundStaysOk(clock: int, events: seq<Event>)
    ensures FoundOk(Run(Start(clock), events))
  {
    if events != [] {
      FoundStaysOk(clock, events[..|events| - 1]);
      StepKeepsFound(Run(Start(clock), events[..|events| - 1]), events[|events| - 1]);
    }
  }

  /** Through registering, ageing, reviving and removing, no account has more than ten current devices --
   *  as long as a device that was found current is still current when it is touched. */
  lemma {:induction false} NeverMoreThanTen(clock: int, events: seq<Event>)
    requires NoLateTouch(clock, events)
    ensures WithinCap(Run(Start(clock), events))
  {
    if events == [] {
      forall u: UserId ensures CurrentOf(Start(clock), u) == {} {
      }
    } else {
      NeverMoreThanTen(clock, events[..|events| - 1]);
      FoundStaysOk(clock, events[..|events| - 1]);
      StepKeepsCap(Run(Start(clock), events[..|events| - 1]), events[|events| - 1]);
    }
  }

  /** That is the only way past the cap: a step leaves it if and only if it is a late touch of a device
   *  whose account has ten others. */
  lemma PastTheCapIffLateTouch(clock: int, events: seq<Event>, e: Event)
    requires WithinCap(Run(Start(clock), events))
    ensures var s := Run(Start(clock), events);
            !WithinCap(Step(s, e)) <==>
              LateTouch(s, e) && |CurrentOf(s, s.devices[s.found[e.op].device].user)| == MAX_DEVICES
  {
    var s := Run(Start(clock), events);
    FoundStaysOk(clock, events);
    if LateTouch(s, e) {
      var i := s.found[e.op].device;
      var owner := s.devices[i].user;
      SeenIn(s, Step(s, e), i, owner);
      assert i !in CurrentOf(s, owner);
      if |CurrentOf(s, owner)| == MAX_DEVICES {
        assert |CurrentOf(Step(s, e), owner)| == MAX_DEVICES + 1;
      } else {
        forall u: UserId ensures CurrentOf(Step(s, e), u) <= if u == owner then CurrentOf(s, u) + {i} else CurrentOf(s, u) {
          SeenIn(s, Step(s, e), i, u);
        }
        OneMoreCurrent(s, Step(s, e), owner, i);
      }
    } else {
      StepKeepsCap(s, e);
    }
  }

  // ---- it can happen -------------------------------------------------------------------------------

  /** A device is found current just before it lapses; then devices 1 to `n` register. */
  function Crowded(n: nat): seq<Event> {
    if n == 0 then [] + [Register(0, 0)] + [Tick(INACTIVE_MS - 1)] + [Require(0, 0, 0)] + [Tick(INACTIVE_MS)]
    else Crowded(n - 1) + [Register(0, n)]
  }

  lemma RunOne(clock: int, events: seq<Event>, e: Event)
    ensures Run(Start(clock), events + [e]) == Step(Run(Start(clock), events), e)
  {
    assert (events + [e])[..|events|] == events;
  }

  function UpTo(n: nat): (s: set<DeviceId>)
    ensures forall i :: i in s <==> 1 <= i <= n
    ensures |s| == n
  {
    if n == 0 then {} else UpTo(n - 1) + {n}
  }

  /** The devices after `n` registrations at the moment the first one lapses. */
  predicate Full(s: State, n: nat) {
    && s.clock == INACTIVE_MS && s.found == map[0 := Current(0)]
    && 0 in s.devices && s.devices[0] == Device(0, 0, false)
    && CurrentOf(s, 0) == UpTo(n) && (forall i | i in s.devices :: i <= n)
  }

  lemma CrowdedStart()
    ensures Full(Run(Start(0), Crowded(0)), 0)
  {
    assert CurrentOf(Start(0), 0) == {};
    RunOne(0, [], Register(0, 0));
    assert Run(Start(0), [] + [Register(0, 0)]) == State(0, map[0 := Device(0, 0, false)], map[]);
    RunOne(0, [] + [Register(0, 0)], Tick(INACTIVE_MS - 1));
    RunOne(0, [] + [Register(0, 0)] + [Tick(INACTIVE_MS - 1)], Require(0, 0, 0));
    RunOne(0, [] + [Register(0, 0)] + [Tick(INACTIVE_MS - 1)] + [Require(0, 0, 0)], Tick(INACTIVE_MS));
    var s := Run(Start(0), Crowded(0));
    assert s == State(INACTIVE_MS, map[0 := Device(0, 0, false)], map[0 := Current(0)]);
    assert CurrentOf(s, 0) == {};
  }

  lemma OneMoreRegisters(s: State, n: nat)
    requires Full(s, n) && n < MAX_DEVICES
    ensures Full(Step(s, Register(0, n + 1)), n + 1)
  {
    var t := Step(s, Register(0, n + 1));
    assert t.devices == s.devices[n + 1 := Device(0, INACTIVE_MS, false)];
    forall i ensures i in CurrentOf(t, 0) <==> i in UpTo(n + 1) {
      assert i in UpTo(n + 1) <==> i in UpTo(n) || i == n + 1;
      assert i in CurrentOf(s, 0) <==> i in UpTo(n);
    }
  }

  lemma {:induction false} CrowdedFills(n: nat)
    requires n <= MAX_DEVICES
    ensures Full(Run(Start(0), Crowded(n)), n)
  {
    if n == 0 {
      CrowdedStart();
    } else {
      CrowdedFills(n - 1);
      RunOne(0, Crowded(n - 1), Register(0, n));
      OneMoreRegisters(Run(Start(0), Crowded(n - 1)), n - 1);
    }
  }

  lemma TouchWhenFull(s: State, n: nat)
    requires Full(s, n)
    ensures |CurrentOf(Step(s, Touch(0)), 0)| == n + 1
  {
    SeenIn(s, Step(s, Touch(0)), 0, 0);
    assert 0 !in UpTo(n);
  }

  /** A run that ends with eleven current devices. */
  lemma ElevenAreReachable() returns (events: seq<Event>)
    ensures |CurrentOf(Run(Start(0), events), 0)| == 11
  {
    CrowdedFills(MAX_DEVICES);
    events := Crowded(MAX_DEVICES) + [Touch(0)];
    RunOne(0, Crowded(MAX_DEVICES), Touch(0));
    TouchWhenFull(Run(Start(0), Crowded(MAX_DEVICES)), MAX_DEVICES);
  }

  // ---- the service itself --------------------------------------------------------------------------

  class DeviceDirectory {
    var clock: int
    var devices: map<DeviceId, Device>
    var found: map<OpId, Found>

    ghost function View(): State
      reads this
    {
      State(clock, devices, found)
    }

    constructor (clock: int)
      ensures View() == Start(clock)
    {
      this.clock := clock;
      devices, found := map[], map[];
    }

    /** `countActiveDevices`. */
    method CountActiveDevices(u: UserId) returns (n: nat)
      ensures n == |CurrentOf(View(), u)|
    {
      n := |set i | i in devices && devices[i].user == u && !devices[i].revoked && devices[i].lastSeen > clock - INACTIVE_MS|;
      assert CurrentOf(View(), u) ==
        set i | i in devices && devices[i].user == u && !devices[i].revoked && devices[i].lastSeen > clock - INACTIVE_MS;
    }

    /** `registerDevice`, under the account's lock. */
    method RegisterDevice(u: UserId, i: DeviceId) returns (registered: bool)
      requires i !in devices
      modifies this`devices
      ensures View() == Step(old(View()), Register(u, i))
      ensures registered <==> |CurrentOf(old(View()), u)| < MAX_DEVICES
      ensures registered ==> i in CurrentOf(View(), u)
      ensures devices == if registered then old(devices)[i := Device(u, clock, false)] else old(devices)
    {
      var n := CountActiveDevices(u);
      if n >= MAX_DEVICES { return false; }
      devices := devices[i := Device(u, clock, false)];
      return true;
    }

    /** `requireDevice` up to what it found. */
    method RequireDevice(op: OpId, u: UserId, i: DeviceId) returns (known: bool)
      requires op !in found
      modifies this`found
      ensures View() == Step(old(View()), Require(op, u, i))
      ensures known <==> i in devices && devices[i].user == u && !devices[i].revoked
      ensures found == if !known then old(found)
                       else old(found)[op := if devices[i].lastSeen > clock - INACTIVE_MS then Current(i) else Inactive(u, i)]
    {
      known := i in devices && devices[i].user == u && !devices[i].revoked;
      if !known { return; }
      found := found[op := if devices[i].lastSeen > clock - INACTIVE_MS then Current(i) else Inactive(u, i)];
    }

    /** `touchDevice` of a device found current. */
    method TouchDevice(op: OpId)
      requires op in found && found[op].Current?
      modifies this`devices, this`found
      ensures View() == Step(old(View()), Touch(op))
      ensures var i := old(found)[op].device;
              forall j | j in devices :: j in old(devices)
                && devices[j] == if j == i && old(devices)[j].lastSeen < clock - HOUR_MS
                                 then old(devices)[j].(lastSeen := clock) else old(devices)[j]
      ensures devices.Keys == old(devices.Keys) && found == old(found) - {op}
    {
      var i := found[op].device;
      found := found - {op};
      if i in devices && devices[i].lastSeen < clock - HOUR_MS {
        devices := devices[i := devices[i].(lastSeen := clock)];
      }
    }

    /** The revival of a device found inactive, under the account's lock. */
    method ReviveDevice(op: OpId) returns (revived: bool)
      requires op in found && found[op].Inactive? && found[op].device in devices
      modifies this`devices, this`found
      ensures View() == Step(old(View()), Revive(op))
      ensures revived <==> |CurrentOf(old(View()), old(found)[op].user)| < MAX_DEVICES
      ensures !revived ==> devices == old(devices)
      ensures revived ==> devices == old(devices)[old(found)[op].device := old(devices)[old(found)[op].device].(lastSeen := clock)]
      ensures found == old(found) - {op}
    {
      var f := found[op];
      found := found - {op};
      var n := CountActiveDevices(f.user);
      assert CurrentOf(View(), f.user) == CurrentOf(old(View()), f.user);
      if n >= MAX_DEVICES { return false; }
      devices := devices[f.device := devices[f.device].(lastSeen := clock)];
      return true;
    }

    /** `revokeDevices`, of one device. */
    method RevokeDevice(u: UserId, i: DeviceId) returns (n: nat)
      modifies this`devices
      ensures View() == Step(old(View()), Revoke(u, i))
      ensures n == if i in old(devices) && old(devices)[i].user == u && !old(devices)[i].revoked then 1 else 0
      ensures i !in CurrentOf(View(), u)
      ensures devices == if n == 1 then old(devices)[i := old(devices)[i].(revoked := true)] else old(devices)
    {
      if i in devices && devices[i].user == u && !devices[i].revoked {
        devices := devices[i := devices[i].(revoked := true)];
        return 1;
      }
      return 0;
    }

    /** `revokeDevices`, of all but one. */
    method RevokeOtherDevices(u: UserId, keep: DeviceId)
      modifies this`devices
      ensures View() == Step(old(View()), RevokeOthers(u, keep))
      ensures CurrentOf(View(), u) == CurrentOf(old(View()), u) * {keep}
      ensures devices.Keys == old(devices.Keys)
      ensures forall i | i in devices :: devices[i] == if old(devices)[i].user == u && i != keep then old(devices)[i].(revoked := true) else old(devices)[i]
    {
      devices := map i | i in devices ::
        if devices[i].user == u && i != keep then devices[i].(revoked := true) else devices[i];
      forall i ensures i in CurrentOf(View(), u) <==> i in CurrentOf(old(View()), u) && i == keep {
      }
    }
  }
}

/**
 * Who is online (apps/api/src/realtime/presence.service.ts).
 *
 * Redis holds, per user, a sorted set of connections scored by expiry, and one index of the users
 * that are online, scored by their latest expiry. Every MULTI and every Lua script is one step. Each
 * carries the `now` its node read beforehand, which may be behind the clock by the time it runs.
 */
module Presence {
  import opened Common

  type UserId = nat
  type ConnId = nat

  /** PRESENCE_TTL_SECONDS, in milliseconds. */
  const TTL_MS := 60_000

  /** `presence:conns:{user}`; the key itself lapses at `deadline`. */
  datatype Conns = Conns(entries: map<ConnId, int>, deadline: int)

  datatype Entry = Entry(user: UserId, conn: ConnId)

  /** The owner of a departure records when the user was last there. */
  datatype Departure = Departure(user: UserId, lastSeen: int, swept: bool)

  /** `conns` and `online` are in Redis. `stays` is history: for each user who is online, the `now` of
   *  every connect and refresh since they came online. So are `arrivals` and `departures`. */
  datatype State = State(
    clock: int,
    conns: map<UserId, Conns>,
    online: map<UserId, int>,
    stays: map<UserId, seq<int>>,
    arrivals: multiset<UserId>,
    departures: seq<Departure>)

  function Start(clock: int): State {
    State(clock, map[], map[], map[], multiset{}, [])
  }

  datatype Event =
    | Connected(user: UserId, conn: ConnId, now: int)
    | Refresh(entries: seq<Entry>, now: int)
    | Disconnected(user: UserId, conn: ConnId, now: int)
    | SweepUser(user: UserId, now: int)
    | KeyLapses(user: UserId)
    | Tick(to: int)

  // ---- one command, one script ---------------------------------------------------------------------

  function EntriesOf(s: State, u: UserId): map<ConnId, int> {
    if u in s.conns then s.conns[u].entries else map[]
  }

  /** A sorted set that has become empty is no key any more. */
  function WithEntries(s: State, u: UserId, entries: map<ConnId, int>): State {
    if u !in s.conns then s
    else if entries == map[] then s.(conns := s.conns - {u})
    else s.(conns := s.conns[u := s.conns[u].(entries := entries)])
  }

  /** ZREMRANGEBYSCORE key -inf now. */
  function After(entries: map<ConnId, int>, now: int): (left: map<ConnId, int>)
    ensures forall c :: c in left <==> c in entries && now < entries[c]
    ensures forall c | c in left :: left[c] == entries[c]
  {
    map c | c in entries && now < entries[c] :: entries[c]
  }

  /** ZCOUNT key now +inf, compared with zero. */
  predicate AnyLive(entries: map<ConnId, int>, now: int) {
    exists c :: c in entries && now <= entries[c]
  }

  /** ZADD, PEXPIRE, and ZADD GT on the index. */
  function Touch(s: State, u: UserId, c: ConnId, now: int): State {
    var expiry := now + TTL_MS;
    s.(conns := s.conns[u := Conns(EntriesOf(s, u)[c := expiry], s.clock + 2 * TTL_MS)],
       online := s.online[u := if u in s.online then Max(s.online[u], expiry) else expiry],
       stays := s.stays[u := if u in s.stays then s.stays[u] + [now] else [now]],
       arrivals := if u in s.online then s.arrivals else s.arrivals + multiset{u})
  }

  function TouchAll(s: State, entries: seq<Entry>, now: int): State {
    if entries == [] then s
    else
      var last := entries[|entries| - 1];
      Touch(TouchAll(s, entries[..|entries| - 1], now), last.user, last.conn, now)
  }

  /** ZREM on the index: the caller that removes the user owns the departure. */
  function Leave(s: State, u: UserId, lastSeen: int, swept: bool): State
    requires u in s.online
  {
    s.(online := s.online - {u}, stays := s.stays - {u}, departures := s.departures + [Departure(u, lastSeen, swept)])
  }

  /** RELEASE_SCRIPT. */
  function Release(s: State, u: UserId, c: ConnId, now: int): State {
    var left := EntriesOf(s, u) - {c};
    var s1 := WithEntries(s, u, left);
    if AnyLive(left, now) || u !in s.online then s1 else Leave(s1, u, now, false)
  }

  /** SWEEP_SCRIPT; the last-seen time is one TTL before the score it returns. */
  function SweepOne(s: State, u: UserId, now: int): State {
    if AnyLive(EntriesOf(s, u), now) then s
    else
      var s1 := WithEntries(s, u, After(EntriesOf(s, u), now));
      if u !in s.online then s1 else Leave(s1, u, s.online[u] - TTL_MS, true)
  }

  function Step(s: State, e: Event): State {
    match e
    case Connected(u, c, now) =>
      if s.clock < now then s else Touch(WithEntries(s, u, After(EntriesOf(s, u), now)), u, c, now)
    case Refresh(entries, now) => if s.clock < now then s else TouchAll(s, entries, now)
    case Disconnected(u, c, now) => if s.clock < now then s else Release(s, u, c, now)
    case SweepUser(u, now) => if s.clock < now then s else SweepOne(s, u, now)
    case KeyLapses(u) => if u in s.conns && s.conns[u].deadline <= s.clock then s.(conns := s.conns - {u}) else s
    case Tick(to) => if s.clock <= to then s.(clock := to) else s
  }

  function Run(s: State, events: seq<Event>): State {
    if events == [] then s else Step(Run(s, events[..|events| - 1]), events[|events| - 1])
  }

  // ---- the invariant -------------------------------------------------------------------------------

  function Latest(times: seq<int>): (t: int)
    requires times != []
    ensures t in times && forall x | x in times :: x <= t
  {
    var last := times[|times| - 1];
    assert times == times[..|times| - 1] + [last];
    if |times| == 1 then last else Max(Latest(times[..|times| - 1]), last)
  }

  function TimesLeft(departures: seq<Departure>, u: UserId): nat {
    if departures == [] then 0
    else TimesLeft(departures[..|departures| - 1], u) + if departures[|departures| - 1].user == u then 1 else 0
  }

  /** No connection outlives its user's place in the index, and none outlives its key. */
  predicate ConnOk(s: State, u: UserId, c: ConnId)
    requires u in s.conns && c in s.conns[u].entries
  {
    var expiry := s.conns[u].entries[c];
    && expiry + TTL_MS <= s.conns[u].deadline
    && (s.clock <= expiry ==> u in s.online && expiry <= s.online[u])
  }

  ghost predicate ConnsOk(s: State) {
    forall u: UserId, c: ConnId | u in s.conns && c in s.conns[u].entries :: ConnOk(s, u, c)
  }

  predicate KeysOk(s: State) {
    forall u | u in s.conns :: s.conns[u].entries != map[]
  }

  /** A user's score is one TTL past the latest connect or refresh of this stay. */
  predicate StayOk(s: State, u: UserId)
    requires u in s.online
  {
    u in s.stays && s.stays[u] != [] && s.online[u] == Latest(s.stays[u]) + TTL_MS && Latest(s.stays[u]) <= s.clock
  }

  predicate StaysOk(s: State) {
    && s.stays.Keys == s.online.Keys
    && forall u | u in s.online :: StayOk(s, u)
  }

  ghost predicate Balanced(s: State) {
    forall u: UserId :: s.arrivals[u] == TimesLeft(s.departures, u) + if u in s.online then 1 else 0
  }

  ghost predicate Inv(s: State) {
    ConnsOk(s) && KeysOk(s) && StaysOk(s) && Balanced(s)
  }

  // ---- every step keeps it -------------------------------------------------------------------------

  lemma TouchKeepsConns(s: State, u: UserId, c: ConnId, now: int)
    requires ConnsOk(s) && KeysOk(s) && StaysOk(s) && now <= s.clock
    ensures ConnsOk(Touch(s, u, c, now)) && KeysOk(Touch(s, u, c, now))
  {
    var t := Touch(s, u, c, now);
    assert u in s.online ==> StayOk(s, u);
    forall v: UserId, d: ConnId | v in t.conns && d in t.conns[v].entries ensures ConnOk(t, v, d) {
      if v in s.conns && d in s.conns[v].entries {
        assert ConnOk(s, v, d);
      }
    }
    assert c in t.conns[u].entries;
  }

  lemma LatestGrows(times: seq<int>, now: int)
    requires times != []
    ensures Latest(times + [now]) == Max(Latest(times), now)
  {
    assert (times + [now])[..|times|] == times;
  }

  lemma TouchKeepsStays(s: State, u: UserId, c: ConnId, now: int)
    requires StaysOk(s) && now <= s.clock
    ensures StaysOk(Touch(s, u, c, now))
  {
    var t := Touch(s, u, c, now);
    if u in s.online {
      assert StayOk(s, u);
      LatestGrows(s.stays[u], now);
    }
    forall v | v in t.online ensures StayOk(t, v) {
      if v != u { assert StayOk(s, v); }
    }
  }

  lemma TouchKeepsBalance(s: State, u: UserId, c: ConnId, now: int)
    requires Balanced(s)
    ensures Balanced(Touch(s, u, c, now))
  {
  }

  lemma TouchKeepsInv(s: State, u: UserId, c: ConnId, now: int)
    requires Inv(s) && now <= s.clock
    ensures Inv(Touch(s, u, c, now))
  {
    TouchKeepsConns(s, u, c, now);
    TouchKeepsStays(s, u, c, now);
    TouchKeepsBalance(s, u, c, now);
  }

  lemma {:induction false} TouchAllKeepsInv(s: State, entries: seq<Entry>, now: int)
    requires Inv(s) && now <= s.clock
    ensures Inv(TouchAll(s, entries, now)) && TouchAll(s, entries, now).clock == s.clock
  {
    if entries != [] {
      var last := entries[|entries| - 1];
      TouchAllKeepsInv(s, entries[..|entries| - 1], now);
      TouchKeepsInv(TouchAll(s, entries[..|entries| - 1], now), last.user, last.conn, now);
    }
  }

  /** Connections taken out of a user's set. */
  lemma FewerKeepsInv(s: State, u: UserId, entries: map<ConnId, int>)
    requires Inv(s)
    requires forall c | c in entries :: c in EntriesOf(s, u) && entries[c] == EntriesOf(s, u)[c]
    ensures Inv(WithEntries(s, u, entries))
  {
    var t := WithEntries(s, u, entries);
    forall v: UserId, d: ConnId | v in t.conns && d in t.conns[v].entries ensures ConnOk(t, v, d) {
      assert ConnOk(s, v, d);
    }
    forall v | v in t.online ensures StayOk(t, v) {
      assert StayOk(s, v);
    }
  }

  lemma LeaveKeepsConns(s: State, u: UserId, lastSeen: int, swept: bool)
    requires ConnsOk(s) && u in s.online && !AnyLive(EntriesOf(s, u), s.clock)
    ensures ConnsOk(Leave(s, u, lastSeen, swept))
  {
    var t := Leave(s, u, lastSeen, swept);
    assert forall d | d in EntriesOf(s, u) :: EntriesOf(s, u)[d] < s.clock;
    forall v: UserId, d: ConnId | v in t.conns && d in t.conns[v].entries ensures ConnOk(t, v, d) {
      assert ConnOk(s, v, d);
    }
  }

  lemma LeaveKeepsStays(s: State, u: UserId, lastSeen: int, swept: bool)
    requires StaysOk(s) && u in s.online
    ensures StaysOk(Leave(s, u, lastSeen, swept))
  {
    var t := Leave(s, u, lastSeen, swept);
    forall v | v in t.online ensures StayOk(t, v) {
      assert StayOk(s, v);
    }
  }

  lemma LeaveKeepsBalance(s: State, u: UserId, lastSeen: int, swept: bool)
    requires Balanced(s) && u in s.online
    ensures Balanced(Leave(s, u, lastSeen, swept))
  {
    var t := Leave(s, u, lastSeen, swept);
    assert t.departures[..|s.departures|] == s.departures;
    forall v: UserId ensures t.arrivals[v] == TimesLeft(t.departures, v) + if v in t.online then 1 else 0 {
      assert s.arrivals[v] == TimesLeft(s.departures, v) + if v in s.online then 1 else 0;
    }
  }

  /** A user with no connection left that is live leaves the index. */
  lemma LeaveKeepsInv(s: State, u: UserId, lastSeen: int, swept: bool)
    requires Inv(s) && u in s.online && !AnyLive(EntriesOf(s, u), s.clock)
    ensures Inv(Leave(s, u, lastSeen, swept))
  {
    LeaveKeepsConns(s, u, lastSeen, swept);
    LeaveKeepsStays(s, u, lastSeen, swept);
    LeaveKeepsBalance(s, u, lastSeen, swept);
  }

  lemma ReleaseKeepsInv(s: State, u: UserId, c: ConnId, now: int)
    requires Inv(s) && now <= s.clock
    ensures Inv(Release(s, u, c, now))
  {
    var left := EntriesOf(s, u) - {c};
    var s1 := WithEntries(s, u, left);
    FewerKeepsInv(s, u, left);
    if !AnyLive(left, now) && u in s.online {
      assert EntriesOf(s1, u) == left;
      LeaveKeepsInv(s1, u, now, false);
    }
  }

  /** Where no connection is live at `now`, all of them had lapsed by then. */
  lemma SweepClears(s: State, u: UserId, now: int)
    requires !AnyLive(EntriesOf(s, u), now)
    ensures After(EntriesOf(s, u), now) == map[]
  {
    assert forall c | c in EntriesOf(s, u) :: EntriesOf(s, u)[c] < now;
  }

  lemma SweepKeepsInv(s: State, u: UserId, now: int)
    requires Inv(s) && now <= s.clock
    ensures Inv(SweepOne(s, u, now))
  {
    if !AnyLive(EntriesOf(s, u), now) {
      SweepClears(s, u, now);
      var s1 := WithEntries(s, u, map[]);
      FewerKeepsInv(s, u, map[]);
      assert EntriesOf(s1, u) == map[];
      if u in s.online {
        LeaveKeepsInv(s1, u, s.online[u] - TTL_MS, true);
      }
    }
  }

  lemma ClockKeepsInv(s: State, to: int)
    requires Inv(s) && s.clock <= to
    ensures Inv(s.(clock := to))
  {
    var t := s.(clock := to);
    forall v: UserId, d: ConnId | v in t.conns && d in t.conns[v].entries ensures ConnOk(t, v, d) {
      assert ConnOk(s, v, d);
    }
    forall v | v in t.online ensures StayOk(t, v) {
      assert StayOk(s, v);
    }
  }

  lemma LapseKeepsInv(s: State, u: UserId)
    requires Inv(s) && u in s.conns
    ensures Inv(s.(conns := s.conns - {u}))
  {
    FewerKeepsInv(s, u, map[]);
  }

  lemma StepKeepsInv(s: State, e: Event)
    requires Inv(s)
    ensures Inv(Step(s, e))
  {
    match e
    case Connected(u, c, now) =>
      if now <= s.clock {
        FewerKeepsInv(s, u, After(EntriesOf(s, u), now));
        TouchKeepsInv(WithEntries(s, u, After(EntriesOf(s, u), now)), u, c, now);
      }
    case Refresh(entries, now) => if now <= s.clock { TouchAllKeepsInv(s, entries, now); }
    case Disconnected(u, c, now) => if now <= s.clock { ReleaseKeepsInv(s, u, c, now); }
    case SweepUser(u, now) => if now <= s.clock { SweepKeepsInv(s, u, now); }
    case KeyLapses(u) => if u in s.conns { LapseKeepsInv(s, u); }
    case Tick(to) => if s.clock <= to { ClockKeepsInv(s, to); }
  }

  lemma {:induction false} RunKeepsInv(clock: int, events: seq<Event>)
    ensures Inv(Run(Start(clock), events))
  {
    if events != [] {
      RunKeepsInv(clock, events[..|events| - 1]);
      StepKeepsInv(Run(Start(clock), events[..|events| - 1]), events[|events| - 1]);
    }
  }

  // ---- what one command leaves ---------------------------------------------------------------------

  /** A connect leaves its own connection and those of its user that have not expired; the score only rises. */
  lemma ConnectLeaves(s: State, u: UserId, c: ConnId, now: int)
    ensures var t := Touch(WithEntries(s, u, After(EntriesOf(s, u), now)), u, c, now);
            && u in t.conns && t.conns[u] == Conns(After(EntriesOf(s, u), now)[c := now + TTL_MS], s.clock + 2 * TTL_MS)
            && t.online == s.online[u := if u in s.online && s.online[u] > now + TTL_MS then s.online[u] else now + TTL_MS]
            && t.conns - {u} == s.conns - {u} && t.departures == s.departures
  {
    assert EntriesOf(WithEntries(s, u, After(EntriesOf(s, u), now)), u) == After(EntriesOf(s, u), now);
  }

  /** What has not expired is live the moment after. */
  lemma AfterIsLive(entries: map<ConnId, int>, now: int)
    ensures (exists d :: d in After(entries, now) && now <= After(entries, now)[d]) <==> AnyLive(entries, now + 1)
  {
    if AnyLive(entries, now + 1) {
      var d :| d in entries && now + 1 <= entries[d];
      assert d in After(entries, now);
    }
  }

  function UsersOf(entries: seq<Entry>): set<UserId> {
    set e | e in entries :: e.user
  }

  /** Another TTL for one connection and its user. */
  predicate Renewed(s: State, e: Entry, now: int) {
    && e.user in s.conns && e.conn in s.conns[e.user].entries && s.conns[e.user].entries[e.conn] == now + TTL_MS
    && e.user in s.online && now + TTL_MS <= s.online[e.user]
  }

  lemma TouchRenews(s: State, last: Entry, now: int)
    ensures var t := Touch(s, last.user, last.conn, now);
            && Renewed(t, last, now) && t.departures == s.departures && t.online.Keys == s.online.Keys + {last.user}
            && forall e: Entry | Renewed(s, e, now) :: Renewed(t, e, now)
  {
  }

  /** A refresh gives each of its connections, and its users, another TTL. */
  lemma {:induction false} RefreshLeaves(s: State, entries: seq<Entry>, now: int)
    ensures var t := TouchAll(s, entries, now);
            && t.departures == s.departures && t.online.Keys == s.online.Keys + UsersOf(entries)
            && forall e | e in entries :: Renewed(t, e, now)
  {
    if entries != [] {
      var init, last := entries[..|entries| - 1], entries[|entries| - 1];
      RefreshLeaves(s, init, now);
      TouchRenews(TouchAll(s, init, now), last, now);
      assert entries == init + [last];
      assert UsersOf(entries) == UsersOf(init) + {last.user};
    }
  }

  /** A disconnect takes out one connection, and its user when none of the others is live. */
  lemma ReleaseLeaves(s: State, u: UserId, c: ConnId, now: int)
    ensures var t := Release(s, u, c, now);
            var leaves := u in s.online && forall d | d in EntriesOf(s, u) && d != c :: EntriesOf(s, u)[d] < now;
            && EntriesOf(t, u) == EntriesOf(s, u) - {c} && t.conns - {u} == s.conns - {u}
            && t.online == (if leaves then s.online - {u} else s.online)
            && t.departures == s.departures + (if leaves then [Departure(u, now, false)] else [])
            && (leaves <==> u in s.online && u !in t.online)
  {
    var left := EntriesOf(s, u) - {c};
    assert AnyLive(left, now) <==> exists d :: d in EntriesOf(s, u) && d != c && now <= EntriesOf(s, u)[d] by {
      if d :| d in EntriesOf(s, u) && d != c && now <= EntriesOf(s, u)[d] { assert d in left; }
    }
  }

  // ---- what holds over every run -------------------------------------------------------------------

  /** A connection that has not expired has its user online, with a score that covers it. */
  lemma LiveMeansOnline(clock: int, events: seq<Event>, u: UserId, c: ConnId)
    requires var s := Run(Start(clock), events);
             c in EntriesOf(s, u) && s.clock <= EntriesOf(s, u)[c]
    ensures var s := Run(Start(clock), events);
            u in s.online && EntriesOf(s, u)[c] <= s.online[u]
  {
    RunKeepsInv(clock, events);
    assert ConnOk(Run(Start(clock), events), u, c);
  }

  /** Events that touch or drop this very connection. */
  predicate Concerns(e: Event, u: UserId, c: ConnId) {
    match e
    case Connected(v, d, _) => v == u && d == c
    case Refresh(entries, _) => Entry(u, c) in entries
    case Disconnected(v, d, _) => v == u && d == c
    case _ => false
  }

  lemma {:induction false} OthersKeepEntry(s: State, entries: seq<Entry>, now: int, u: UserId, c: ConnId)
    requires c in EntriesOf(s, u) && Entry(u, c) !in entries
    ensures var t := TouchAll(s, entries, now); c in EntriesOf(t, u) && EntriesOf(t, u)[c] == EntriesOf(s, u)[c]
  {
    if entries != [] {
      var init, last := entries[..|entries| - 1], entries[|entries| - 1];
      assert entries == init + [last] && last in entries;
      OthersKeepEntry(s, init, now, u, c);
    }
  }

  lemma ConnectKeepsEntry(s: State, e: Event, u: UserId, c: ConnId)
    requires e.Connected? && c in EntriesOf(s, u) && !Concerns(e, u, c) && s.clock < EntriesOf(s, u)[c]
    ensures c in EntriesOf(Step(s, e), u) && EntriesOf(Step(s, e), u)[c] == EntriesOf(s, u)[c] && Step(s, e).clock == s.clock
  {
    if e.now <= s.clock {
      ConnectLeaves(s, e.user, e.conn, e.now);
      assert e.user != u ==> u in s.conns - {e.user};
      assert e.user != u ==> u in Step(s, e).conns - {e.user};
    }
  }

  lemma ReleaseKeepsEntry(s: State, e: Event, u: UserId, c: ConnId)
    requires e.Disconnected? && e.now <= s.clock && c in EntriesOf(s, u) && !Concerns(e, u, c)
    ensures c in EntriesOf(Step(s, e), u) && EntriesOf(Step(s, e), u)[c] == EntriesOf(s, u)[c] && Step(s, e).clock == s.clock
  {
    ReleaseLeaves(s, e.user, e.conn, e.now);
    assert e.user != u ==> u in s.conns - {e.user};
    assert e.user != u ==> u in Step(s, e).conns - {e.user};
  }

  lemma StepKeepsEntry(s: State, e: Event, u: UserId, c: ConnId)
    requires ConnsOk(s) && c in EntriesOf(s, u) && !Concerns(e, u, c) && s.clock < EntriesOf(s, u)[c]
    ensures s.clock <= Step(s, e).clock && c in EntriesOf(Step(s, e), u) && EntriesOf(Step(s, e), u)[c] == EntriesOf(s, u)[c]
  {
    assert ConnOk(s, u, c);
    if e.Refresh? {
      if e.now <= s.clock { OthersKeepEntry(s, e.entries, e.now, u, c); TouchKeepsClock(s, e.entries, e.now); }
    } else if e.Connected? {
      ConnectKeepsEntry(s, e, u, c);
    } else if e.Disconnected? {
      if e.now <= s.clock { ReleaseLeaves(s, e.user, e.conn, e.now); ReleaseKeepsEntry(s, e, u, c); }
    }
  }

  lemma {:induction false} TouchKeepsClock(s: State, entries: seq<Entry>, now: int)
    ensures TouchAll(s, entries, now).clock == s.clock
  {
    if entries != [] { TouchKeepsClock(s, entries[..|entries| - 1], now); }
  }

  /** A connection keeps its place, and its user stays online, for as long as it has not expired -- whatever
   *  other connections, sweeps and lapsing keys do. */
  lemma {:induction false} ConnectionStays(s: State, more: seq<Event>, u: UserId, c: ConnId)
    requires Inv(s) && c in EntriesOf(s, u) && forall e | e in more :: !Concerns(e, u, c)
    requires Run(s, more).clock < EntriesOf(s, u)[c]
    ensures var t := Run(s, more);
            && Inv(t) && s.clock <= t.clock
            && c in EntriesOf(t, u) && EntriesOf(t, u)[c] == EntriesOf(s, u)[c]
            && u in t.online && EntriesOf(s, u)[c] <= t.online[u]
  {
    if more == [] {
      assert ConnOk(s, u, c);
    } else {
      var init, e := more[..|more| - 1], more[|more| - 1];
      ClockMoves(Run(s, init), e);
      ConnectionStays(s, init, u, c);
      StepKeepsInv(Run(s, init), e);
      StepKeepsEntry(Run(s, init), e, u, c);
      assert ConnOk(Run(s, more), u, c);
    }
  }

  lemma ClockMoves(s: State, e: Event)
    ensures s.clock <= Step(s, e).clock
  {
    if e.Refresh? { TouchKeepsClock(s, e.entries, e.now); }
  }

  /** A user who is out of the index has no connection that is live. */
  lemma OutMeansNoneLive(s: State, u: UserId)
    requires ConnsOk(s) && u !in s.online
    ensures !AnyLive(EntriesOf(s, u), s.clock)
  {
    forall c | c in EntriesOf(s, u) ensures EntriesOf(s, u)[c] < s.clock {
      assert ConnOk(s, u, c);
    }
  }

  /** One departure of `u` was recorded. */
  predicate Departed(s: State, t: State, u: UserId) {
    && |t.departures| == |s.departures| + 1 && t.departures[..|s.departures|] == s.departures
    && t.departures[|s.departures|].user == u
  }

  lemma ReleaseRecords(s: State, u: UserId, c: ConnId, now: int, v: UserId)
    requires v in s.online && v !in Release(s, u, c, now).online
    ensures Departed(s, Release(s, u, c, now), v)
  {
  }

  lemma SweepRecords(s: State, u: UserId, now: int, v: UserId)
    requires v in s.online && v !in SweepOne(s, u, now).online
    ensures Departed(s, SweepOne(s, u, now), v)
  {
  }

  /** Whatever step takes a user out of the index, no unexpired connection of theirs is left after it,
   *  and the step records exactly that one departure. */
  lemma LeavingMeansGone(clock: int, events: seq<Event>, e: Event, u: UserId)
    requires u in Run(Start(clock), events).online && u !in Step(Run(Start(clock), events), e).online
    ensures var s := Run(Start(clock), events);
            var t := Step(s, e);
            !AnyLive(EntriesOf(t, u), t.clock) && Departed(s, t, u)
  {
    var s := Run(Start(clock), events);
    RunKeepsInv(clock, events);
    StepKeepsInv(s, e);
    OutMeansNoneLive(Step(s, e), u);
    OnlyLeavesRecord(s, e, u);
  }

  lemma OnlyLeavesRecord(s: State, e: Event, u: UserId)
    requires u in s.online && u !in Step(s, e).online
    ensures Departed(s, Step(s, e), u)
  {
    match e
    case Disconnected(v, c, now) => ReleaseRecords(s, v, c, now, u);
    case SweepUser(v, now) => SweepRecords(s, v, now, u);
    case Refresh(entries, now) => TouchAllStays(s, entries, now, u);
    case _ =>
  }

  lemma {:induction false} TouchAllStays(s: State, entries: seq<Entry>, now: int, u: UserId)
    requires u in s.online
    ensures u in TouchAll(s, entries, now).online
  {
    if entries != [] {
      TouchAllStays(s, entries[..|entries| - 1], now, u);
    }
  }

  /** Every arrival is followed by one departure at most, owned by one caller, before the next. */
  lemma OneOwnerPerDeparture(clock: int, events: seq<Event>, u: UserId)
    ensures var s := Run(Start(clock), events);
            s.arrivals[u] - TimesLeft(s.departures, u) == if u in s.online then 1 else 0
  {
    RunKeepsInv(clock, events);
  }

  /** A user's score is one TTL past the latest connect or refresh of their stay. */
  lemma ScoreIsLastTouch(clock: int, events: seq<Event>, u: UserId)
    requires u in Run(Start(clock), events).online
    ensures var s := Run(Start(clock), events);
            && u in s.stays && s.stays[u] != []
            && s.online[u] - TTL_MS in s.stays[u]
            && (forall now | now in s.stays[u] :: now <= s.online[u] - TTL_MS)
            && s.online[u] - TTL_MS <= s.clock
  {
    RunKeepsInv(clock, events);
    assert StayOk(Run(Start(clock), events), u);
  }

  /** So what a sweep records as last seen is the latest connect or refresh of the stay it ends. */
  lemma SweepRecordsLastTouch(clock: int, events: seq<Event>, u: UserId, now: int)
    requires var s := Run(Start(clock), events);
             u in s.online && u !in Step(s, SweepUser(u, now)).online
    ensures var s := Run(Start(clock), events);
            && u in s.stays && s.stays[u] != []
            && Step(s, SweepUser(u, now)).departures == s.departures + [Departure(u, Latest(s.stays[u]), true)]
  {
    RunKeepsInv(clock, events);
    SweepRecordsAt(Run(Start(clock), events), u, now);
  }

  lemma SweepRecordsAt(s: State, u: UserId, now: int)
    requires StaysOk(s) && u in s.online
    ensures u in s.stays && s.stays[u] != []
    ensures u !in Step(s, SweepUser(u, now)).online ==>
              Step(s, SweepUser(u, now)).departures == s.departures + [Departure(u, Latest(s.stays[u]), true)]
  {
    assert StayOk(s, u);
  }

  /** A sweep of one user takes them out exactly when none of their connections is live at its `now`;
   *  at the current time, that is every user whose score has passed. */
  lemma SweepTakesOut(clock: int, events: seq<Event>, u: UserId, now: int)
    requires var s := Run(Start(clock), events); now <= s.clock && u in s.online
    ensures var s := Run(Start(clock), events);
            && (u !in Step(s, SweepUser(u, now)).online <==> !AnyLive(EntriesOf(s, u), now))
            && (now == s.clock && s.online[u] < now ==> u !in Step(s, SweepUser(u, now)).online)
  {
    var s := Run(Start(clock), events);
    RunKeepsInv(clock, events);
    if now == s.clock && s.online[u] < now {
      forall c | c in EntriesOf(s, u) ensures EntriesOf(s, u)[c] < now {
        assert ConnOk(s, u, c);
      }
    }
  }

  /** When Redis lets a user's key lapse, every connection in it had expired. */
  lemma LapseLosesNothing(clock: int, events: seq<Event>, u: UserId)
    requires var s := Run(Start(clock), events); u in s.conns && s.conns[u].deadline <= s.clock
    ensures !AnyLive(EntriesOf(Run(Start(clock), events), u), Run(Start(clock), events).clock)
  {
    var s := Run(Start(clock), events);
    RunKeepsInv(clock, events);
    forall c | c in EntriesOf(s, u) ensures EntriesOf(s, u)[c] < s.clock {
      assert ConnOk(s, u, c);
    }
  }

  // ---- the service itself --------------------------------------------------------------------------

  /** Redis as the service uses it. */
  class PresenceService {
    var clock: int
    var conns: map<UserId, Conns>
    var online: map<UserId, int>
    ghost var stays: map<UserId, seq<int>>
    ghost var arrivals: multiset<UserId>
    var departures: seq<Departure>

    ghost function View(): State
      reads this
    {
      State(clock, conns, online, stays, arrivals, departures)
    }

    constructor (clock: int)
      ensures View() == Start(clock)
    {
      this.clock := clock;
      conns, online, stays, arrivals, departures := map[], map[], map[], multiset{}, [];
    }

    method SetEntries(u: UserId, entries: map<ConnId, int>)
      modifies this`conns
      ensures View() == WithEntries(old(View()), u, entries)
      ensures EntriesOf(View(), u) == (if u in old(conns) then entries else map[])
    {
      if u !in conns { return; }
      if entries == map[] {
        conns := conns - {u};
      } else {
        conns := conns[u := conns[u].(entries := entries)];
      }
    }

    method AddConnection(u: UserId, c: ConnId, now: int)
      modifies this
      ensures View() == Touch(old(View()), u, c, now)
    {
      var expiry := now + TTL_MS;
      if u !in online { arrivals := arrivals + multiset{u}; }
      var entries := if u in conns then conns[u].entries else map[];
      conns := conns[u := Conns(entries[c := expiry], clock + 2 * TTL_MS)];
      if u !in online || online[u] < expiry { online := online[u := expiry]; }
      stays := stays[u := if u in stays then stays[u] + [now] else [now]];
    }

    /** The MULTI of `connected`; `first` when no live connection was there before. */
    method Connect(u: UserId, c: ConnId, now: int) returns (first: bool)
      requires now <= clock
      modifies this
      ensures View() == Step(old(View()), Connected(u, c, now))
      ensures first <==> !AnyLive(EntriesOf(old(View()), u), now + 1)
      ensures c in EntriesOf(View(), u) && u in online && now + TTL_MS <= online[u]
      ensures u in conns && conns[u].deadline == clock + 2 * TTL_MS
      ensures conns[u].entries == After(EntriesOf(old(View()), u), now)[c := now + TTL_MS]
      ensures online == old(online)[u := if u in old(online) && old(online)[u] > now + TTL_MS then old(online)[u] else now + TTL_MS]
      ensures conns - {u} == old(conns) - {u} && departures == old(departures)
    {
      ConnectLeaves(View(), u, c, now);
      var entries := if u in conns then conns[u].entries else map[];
      var kept := map d | d in entries && now < entries[d] :: entries[d];
      assert kept == After(entries, now);
      SetEntries(u, kept);
      first := !(exists d :: d in kept && now <= kept[d]);
      AfterIsLive(entries, now);
      AddConnection(u, c, now);
    }

    /** The MULTI of `refresh`, one node's connections at a heartbeat. */
    method RefreshAll(entries: seq<Entry>, now: int)
      requires now <= clock
      modifies this
      ensures View() == Step(old(View()), Refresh(entries, now))
      ensures departures == old(departures) && online.Keys == old(online.Keys) + UsersOf(entries)
      ensures forall e | e in entries :: Renewed(View(), e, now)
    {
      for i := 0 to |entries|
        invariant View() == TouchAll(old(View()), entries[..i], now)
      {
        assert entries[..i + 1][..i] == entries[..i];
        AddConnection(entries[i].user, entries[i].conn, now);
      }
      assert entries[..|entries|] == entries;
      RefreshLeaves(old(View()), entries, now);
    }

    /** RELEASE_SCRIPT. */
    method Disconnect(u: UserId, c: ConnId, now: int) returns (wentOffline: bool)
      requires now <= clock
      modifies this
      ensures View() == Step(old(View()), Disconnected(u, c, now))
      ensures wentOffline <==> u in old(online) && u !in online
      ensures EntriesOf(View(), u) == EntriesOf(old(View()), u) - {c} && conns - {u} == old(conns) - {u}
      ensures wentOffline <==> u in old(online) && forall d | d in EntriesOf(old(View()), u) && d != c :: EntriesOf(old(View()), u)[d] < now
      ensures online == (if wentOffline then old(online) - {u} else old(online))
      ensures departures == old(departures) + if wentOffline then [Departure(u, now, false)] else []
    {
      ReleaseLeaves(View(), u, c, now);
      var left := (if u in conns then conns[u].entries else map[]) - {c};
      SetEntries(u, left);
      if exists d :: d in left && now <= left[d] { return false; }
      wentOffline := u in online;
      if wentOffline { Remove(u, now, false); }
    }

    method Remove(u: UserId, lastSeen: int, swept: bool)
      requires u in online
      modifies this
      ensures View() == Leave(old(View()), u, lastSeen, swept)
    {
      online := online - {u};
      stays := stays - {u};
      departures := departures + [Departure(u, lastSeen, swept)];
    }

    /** SWEEP_SCRIPT. */
    method SweepScript(u: UserId, now: int) returns (score: Option<int>)
      requires now <= clock
      modifies this
      ensures View() == Step(old(View()), SweepUser(u, now)) == SweepOne(old(View()), u, now)
      ensures score == if u in old(online) && u !in online then Some(old(online)[u]) else None
      ensures score.Some? <==> u in old(online) && forall d | d in EntriesOf(old(View()), u) :: EntriesOf(old(View()), u)[d] < now
      ensures online == (if score.Some? then old(online) - {u} else old(online)) && conns - {u} == old(conns) - {u}
      ensures departures == old(departures) + if score.Some? then [Departure(u, score.value - TTL_MS, true)] else []
    {
      var entries := if u in conns then conns[u].entries else map[];
      if exists d :: d in entries && now <= entries[d] { return None; }
      SetEntries(u, map d | d in entries && now < entries[d] :: entries[d]);
      if u !in online { return None; }
      score := Some(online[u]);
      Remove(u, online[u] - TTL_MS, true);
    }

    /** The loop of `sweep`. */
    method SweepEach(expired: set<UserId>, now: int) returns (gone: set<UserId>)
      requires now == clock && expired == Expired(View(), now)
      modifies this
      ensures clock == old(clock)
      ensures SweptSoFar(old(View()), View(), now, {}, gone)
    {
      var rest := expired;
      gone := {};
      SweepStarts(View(), now);
      while rest != {}
        invariant clock == now
        invariant SweptSoFar(old(View()), View(), now, rest, gone)
        decreases |rest|
      {
        var u :| u in rest;
        SweepOneMore(old(View()), View(), now, rest, gone, u);
        rest := rest - {u};
        var score := SweepScript(u, now);
        if score.Some? { gone := gone + {u}; }
      }
    }

    /** `sweep`, with nothing in between: out go exactly the users whose score has passed or is passing and who
     *  have no live connection, and nobody whose score has passed is left. */
    method Sweep() returns (gone: set<UserId>)
      requires Inv(View())
      modifies this
      ensures clock == old(clock)
      ensures forall u :: u in gone <==>
                u in old(online) && old(online)[u] <= clock && !AnyLive(EntriesOf(old(View()), u), clock)
      ensures online == old(online) - gone
      ensures forall u | u in online :: clock <= online[u]
    {
      var now := clock;
      var expired := set u | u in online && online[u] <= now;
      assert expired == Expired(View(), now);
      gone := SweepEach(expired, now);
      SweepDone(old(View()), View(), now, gone);
    }
  }

  function Expired(s: State, now: int): set<UserId> {
    set u | u in s.online && s.online[u] <= now
  }

  /** Half a sweep: `rest` is still as it was, and `gone` are those of the others who had no live connection. */
  ghost predicate SweptSoFar(s: State, t: State, now: int, rest: set<UserId>, gone: set<UserId>) {
    && rest <= Expired(s, now)
    && (forall u | u in rest :: EntriesOf(t, u) == EntriesOf(s, u))
    && (forall u :: u in gone <==> u in Expired(s, now) && u !in rest && !AnyLive(EntriesOf(s, u), now))
    && t.online == s.online - gone
  }

  lemma SweepStarts(s: State, now: int)
    ensures SweptSoFar(s, s, now, Expired(s, now), {})
  {
  }

  lemma SweepDone(s: State, t: State, now: int, gone: set<UserId>)
    requires Inv(s) && s.clock == now && SweptSoFar(s, t, now, {}, gone)
    ensures forall u :: u in gone <==> u in s.online && s.online[u] <= now && !AnyLive(EntriesOf(s, u), now)
    ensures forall u | u in t.online :: now <= t.online[u]
  {
    forall u | u in t.online ensures now <= t.online[u] {
      ScorePassed(s, u);
      assert u in Expired(s, now) || now < s.online[u];
    }
  }

  lemma SweepOneMore(s: State, t: State, now: int, rest: set<UserId>, gone: set<UserId>, u: UserId)
    requires SweptSoFar(s, t, now, rest, gone) && u in rest && now <= t.clock
    ensures SweptSoFar(s, SweepOne(t, u, now), now, rest - {u},
                       if AnyLive(EntriesOf(s, u), now) then gone else gone + {u})
    ensures u in t.online && (u !in SweepOne(t, u, now).online <==> !AnyLive(EntriesOf(s, u), now))
  {
    SweepFrame(t, u, now);
    assert u in s.online && u !in gone;
  }

  /** A sweep of one user is about nobody else. */
  lemma SweepFrame(s: State, u: UserId, now: int)
    ensures forall v | v != u :: EntriesOf(SweepOne(s, u, now), v) == EntriesOf(s, v)
    ensures SweepOne(s, u, now).online == if u in s.online && !AnyLive(EntriesOf(s, u), now) then s.online - {u} else s.online
  {
  }

  /** A user whose score has passed has no live connection. */
  lemma ScorePassed(s: State, u: UserId)
    requires Inv(s)
    ensures u in s.online && s.online[u] < s.clock ==> !AnyLive(EntriesOf(s, u), s.clock)
  {
    if u in s.online && s.online[u] < s.clock {
      forall c | c in EntriesOf(s, u) ensures EntriesOf(s, u)[c] < s.clock {
        assert ConnOk(s, u, c);
      }
    }
  }
}

/**
 * Who administers a group (apps/api/src/db/conversations.ts,
 * apps/api/src/conversations/conversations.service.ts, apps/api/src/users/account.service.ts).
 *
 * Each transaction is one step. Adding members is two: the service checks that the caller is an
 * admin, and the transaction that adds comes later.
 */
module Groups {
  import opened Common

  type GroupId = nat
  type UserId = nat
  type OpId = nat

  datatype Role = Admin | Plain

  /** One row of `memberships`. */
  datatype Member = Member(role: Role, joinedAt: int, active: bool)

  type Rows = map<(GroupId, UserId), Member>

  /** An add that has passed the admin check. */
  datatype Pending = Pending(group: GroupId, users: set<UserId>)

  /** `orphaned` is history: the groups whose present members were added after everyone had left. */
  datatype State = State(
    groups: set<GroupId>,
    rows: Rows,
    adds: map<OpId, Pending>,
    deleted: set<UserId>,
    orphaned: set<GroupId>)

  const Empty := State({}, map[], map[], {}, {})

  datatype Event =
    | Create(group: GroupId, creator: UserId, others: set<UserId>, now: int)
    | AskAdd(op: OpId, group: GroupId, actor: UserId, users: set<UserId>)
    | Add(op: OpId, now: int)
    | Leave(group: GroupId, user: UserId, successor: UserId)
    | DeleteAccount(user: UserId, successors: map<GroupId, UserId>)

  // ---- queries -------------------------------------------------------------------------------------

  predicate IsActive(rows: Rows, g: GroupId, u: UserId) {
    (g, u) in rows && rows[(g, u)].active
  }

  predicate IsAdmin(rows: Rows, g: GroupId, u: UserId) {
    IsActive(rows, g, u) && rows[(g, u)].role == Admin
  }

  function ActiveIn(rows: Rows, g: GroupId): set<UserId> {
    set k | k in rows && k.0 == g && rows[k].active :: k.1
  }

  function AdminsIn(rows: Rows, g: GroupId): set<UserId> {
    set k | k in rows && k.0 == g && rows[k].active && rows[k].role == Admin :: k.1
  }

  /** `order by joined_at limit 1`: any of those who joined first. */
  predicate IsOldest(rows: Rows, g: GroupId, u: UserId) {
    && IsActive(rows, g, u)
    && forall v | v in ActiveIn(rows, g) :: IsActive(rows, g, v) && rows[(g, u)].joinedAt <= rows[(g, v)].joinedAt
  }

  // ---- the transactions ----------------------------------------------------------------------------

  /** The rows of `addGroupMembers`: those already active stay as they are, the others (re)join as
   *  plain members. */
  function WithMembers(rows: Rows, g: GroupId, users: set<UserId>, now: int): Rows {
    rows + (map u | u in users && !IsActive(rows, g, u) :: (g, u) := Member(Plain, now, true))
  }

  function Deactivated(rows: Rows, g: GroupId, u: UserId): Rows
    requires (g, u) in rows
  {
    rows[(g, u) := rows[(g, u)].(active := false)]
  }

  /** Someone has to take over: the last admin is leaving, and others stay. */
  predicate NeedsSuccessor(rows: Rows, g: GroupId, u: UserId) {
    IsAdmin(rows, g, u) && AdminsIn(rows, g) == {u} && ActiveIn(rows, g) != {u}
  }

  /** `leaveConversation`; `successor` is what the query for the oldest member returned. */
  function Left(rows: Rows, g: GroupId, u: UserId, successor: UserId): Rows {
    if !IsActive(rows, g, u) then rows
    else
      var left := Deactivated(rows, g, u);
      if !NeedsSuccessor(rows, g, u) || (g, successor) !in left then left
      else left[(g, successor) := left[(g, successor)].(role := Admin)]
  }

  /** The query can return this member. */
  predicate MaySucceed(rows: Rows, g: GroupId, u: UserId, successor: UserId) {
    NeedsSuccessor(rows, g, u) ==> IsOldest(Deactivated(rows, g, u), g, successor)
  }

  /** The groups an account is in. */
  function GroupsOf(rows: Rows, u: UserId): set<GroupId> {
    set k | k in rows && k.1 == u && rows[k].active :: k.0
  }

  /** The account's leave of every group, each of which concerns only that group's rows. */
  function LeftAll(rows: Rows, u: UserId, successors: map<GroupId, UserId>): Rows {
    map k | k in rows ::
      if k.0 in successors then Left(rows, k.0, u, successors[k.0])[k] else rows[k]
  }

  predicate AllMaySucceed(rows: Rows, u: UserId, successors: map<GroupId, UserId>) {
    && successors.Keys == GroupsOf(rows, u)
    && forall g | g in successors :: MaySucceed(rows, g, u, successors[g])
  }

  function DoAdd(s: State, op: OpId, now: int): State
    requires op in s.adds
  {
    var p := s.adds[op];
    var done := s.(adds := s.adds - {op});
    var joining := p.users - ActiveIn(s.rows, p.group);
    if !(joining !! s.deleted) || joining == {} then done
    else done.(rows := WithMembers(s.rows, p.group, p.users, now),
               orphaned := if ActiveIn(s.rows, p.group) == {} then s.orphaned + {p.group} else s.orphaned)
  }

  /** The groups that are orphaned and still have members. */
  function StillOrphaned(orphaned: set<GroupId>, rows: Rows): set<GroupId> {
    set g | g in orphaned && ActiveIn(rows, g) != {}
  }

  function Step(s: State, e: Event): State {
    match e
    case Create(g, creator, others, now) =>
      if g in s.groups || !(({creator} + others) !! s.deleted) then s
      else s.(groups := s.groups + {g},
              rows := WithMembers(s.rows, g, others, now)[(g, creator) := Member(Admin, now, true)])
    case AskAdd(op, g, actor, users) =>
      if op in s.adds || !IsAdmin(s.rows, g, actor) then s else s.(adds := s.adds[op := Pending(g, users)])
    case Add(op, now) => if op in s.adds then DoAdd(s, op, now) else s
    case Leave(g, u, successor) =>
      if !MaySucceed(s.rows, g, u, successor) then s
      else
        var rows := Left(s.rows, g, u, successor);
        s.(rows := rows, orphaned := StillOrphaned(s.orphaned, rows))
    case DeleteAccount(u, successors) =>
      if !AllMaySucceed(s.rows, u, successors) then s
      else
        var rows := LeftAll(s.rows, u, successors);
        s.(rows := rows, deleted := s.deleted + {u}, orphaned := StillOrphaned(s.orphaned, rows))
  }

  function Run(events: seq<Event>): State {
    if events == [] then Empty else Step(Run(events[..|events| - 1]), events[|events| - 1])
  }

  // ---- the invariant -------------------------------------------------------------------------------

  /** A group with someone in it has an admin, unless it was refilled after everyone had left. */
  predicate GroupOk(s: State, g: GroupId) {
    && (g in s.orphaned ==> ActiveIn(s.rows, g) != {} && AdminsIn(s.rows, g) == {})
    && (g !in s.orphaned && ActiveIn(s.rows, g) != {} ==> AdminsIn(s.rows, g) != {})
  }

  ghost predicate GroupsOk(s: State) {
    forall g: GroupId :: GroupOk(s, g)
  }

  predicate RowsKnown(s: State) {
    && (forall k | k in s.rows :: k.0 in s.groups)
    && (forall op | op in s.adds :: s.adds[op].group in s.groups)
  }

  ghost predicate DeletedAreOut(s: State) {
    forall g: GroupId, u | u in s.deleted :: u !in ActiveIn(s.rows, g)
  }

  ghost predicate Inv(s: State) {
    GroupsOk(s) && RowsKnown(s) && DeletedAreOut(s)
  }

  // ---- what a transaction does to one group --------------------------------------------------------

  lemma ActiveAreActive(rows: Rows, g: GroupId, u: UserId)
    ensures u in ActiveIn(rows, g) <==> IsActive(rows, g, u)
    ensures u in AdminsIn(rows, g) <==> IsAdmin(rows, g, u)
    ensures AdminsIn(rows, g) <= ActiveIn(rows, g)
  {
    if IsActive(rows, g, u) { assert (g, u).0 == g; }
  }

  lemma WithMembersIn(rows: Rows, g: GroupId, users: set<UserId>, now: int, h: GroupId)
    ensures ActiveIn(WithMembers(rows, g, users, now), h) == if h == g then ActiveIn(rows, g) + users else ActiveIn(rows, h)
    ensures AdminsIn(WithMembers(rows, g, users, now), h) == AdminsIn(rows, h)
  {
    var t := WithMembers(rows, g, users, now);
    forall u: UserId
      ensures u in ActiveIn(t, h) <==> u in ActiveIn(rows, h) || (h == g && u in users)
      ensures u in AdminsIn(t, h) <==> u in AdminsIn(rows, h)
    {
      ActiveAreActive(t, h, u);
      ActiveAreActive(rows, h, u);
      assert (h, u) in t && (h, u) !in rows ==> h == g && u in users;
    }
  }

  lemma LeftIn(rows: Rows, g: GroupId, u: UserId, successor: UserId, h: GroupId)
    requires MaySucceed(rows, g, u, successor)
    ensures ActiveIn(Left(rows, g, u, successor), h) == if h == g then ActiveIn(rows, g) - {u} else ActiveIn(rows, h)
    ensures AdminsIn(Left(rows, g, u, successor), h) ==
            if h != g then AdminsIn(rows, h) else if NeedsSuccessor(rows, g, u) then {successor} else AdminsIn(rows, g) - {u}
  {
    var t := Left(rows, g, u, successor);
    if NeedsSuccessor(rows, g, u) { SuccessorStays(rows, g, u, successor); }
    forall v: UserId
      ensures v in ActiveIn(t, h) <==> v in ActiveIn(rows, h) && !(h == g && v == u)
      ensures v in AdminsIn(t, h) <==>
                if h == g && NeedsSuccessor(rows, g, u) then v == successor
                else v in AdminsIn(rows, h) && !(h == g && v == u)
    {
      ActiveAreActive(t, h, v);
      ActiveAreActive(rows, h, v);
    }
  }

  lemma SuccessorStays(rows: Rows, g: GroupId, u: UserId, successor: UserId)
    requires MaySucceed(rows, g, u, successor) && NeedsSuccessor(rows, g, u)
    ensures successor != u && IsActive(rows, g, successor)
  {
  }

  lemma LeaveKeepsGroup(s: State, g: GroupId, u: UserId, successor: UserId, h: GroupId)
    requires GroupOk(s, h) && MaySucceed(s.rows, g, u, successor)
    ensures var rows := Left(s.rows, g, u, successor);
            GroupOk(s.(rows := rows, orphaned := StillOrphaned(s.orphaned, rows)), h)
  {
    LeftIn(s.rows, g, u, successor, h);
    ActiveAreActive(s.rows, g, u);
  }

  lemma AddKeepsInv(s: State, op: OpId, now: int)
    requires Inv(s) && op in s.adds
    ensures Inv(DoAdd(s, op, now))
  {
    var p := s.adds[op];
    var t := DoAdd(s, op, now);
    forall h: GroupId ensures GroupOk(t, h) && (forall u | u in t.deleted :: u !in ActiveIn(t.rows, h)) {
      assert GroupOk(s, h);
      WithMembersIn(s.rows, p.group, p.users, now, h);
      NoAdminsWithoutMembers(s.rows, h);
    }
  }

  lemma NoAdminsWithoutMembers(rows: Rows, g: GroupId)
    ensures AdminsIn(rows, g) <= ActiveIn(rows, g)
  {
  }

  lemma CreateKeepsInv(s: State, e: Event)
    requires Inv(s) && e.Create?
    ensures Inv(Step(s, e))
  {
    var t := Step(s, e);
    if t != s {
      forall h: GroupId ensures GroupOk(t, h) && (forall u | u in t.deleted :: u !in ActiveIn(t.rows, h)) {
        assert GroupOk(s, h);
        CreatedIn(s, e, h);
      }
    }
  }

  lemma AdminRowIn(rows: Rows, g: GroupId, u: UserId, now: int, h: GroupId)
    ensures var t := rows[(g, u) := Member(Admin, now, true)];
            && ActiveIn(t, h) == (if h == g then ActiveIn(rows, h) + {u} else ActiveIn(rows, h))
            && AdminsIn(t, h) == (if h == g then AdminsIn(rows, h) + {u} else AdminsIn(rows, h))
  {
    var t := rows[(g, u) := Member(Admin, now, true)];
    forall v: UserId
      ensures v in ActiveIn(t, h) <==> v in ActiveIn(rows, h) || (h == g && v == u)
      ensures v in AdminsIn(t, h) <==> v in AdminsIn(rows, h) || (h == g && v == u)
    {
      ActiveAreActive(t, h, v);
      ActiveAreActive(rows, h, v);
    }
  }

  /** A new group has its creator as its only admin. */
  lemma CreatedIn(s: State, e: Event, h: GroupId)
    requires GroupOk(s, h) && RowsKnown(s) && e.Create? && e.group !in s.groups
    ensures var rows := WithMembers(s.rows, e.group, e.others, e.now)[(e.group, e.creator) := Member(Admin, e.now, true)];
            && ActiveIn(rows, h) == (if h == e.group then {e.creator} + e.others else ActiveIn(s.rows, h))
            && AdminsIn(rows, h) == (if h == e.group then {e.creator} else AdminsIn(s.rows, h))
    ensures h == e.group ==> h !in s.orphaned
  {
    assert ActiveIn(s.rows, e.group) == {};
    NoAdminsWithoutMembers(s.rows, e.group);
    WithMembersIn(s.rows, e.group, e.others, e.now, h);
    AdminRowIn(WithMembers(s.rows, e.group, e.others, e.now), e.group, e.creator, e.now, h);
  }

  lemma LeaveKeepsInv(s: State, e: Event)
    requires Inv(s) && e.Leave?
    ensures Inv(Step(s, e))
  {
    if MaySucceed(s.rows, e.group, e.user, e.successor) {
      var t := Step(s, e);
      forall h: GroupId ensures GroupOk(t, h) && (forall u | u in t.deleted :: u !in ActiveIn(t.rows, h)) {
        assert GroupOk(s, h);
        LeaveKeepsGroup(s, e.group, e.user, e.successor, h);
        LeftIn(s.rows, e.group, e.user, e.successor, h);
      }
    }
  }

  /** Leaving every group is leaving each: one group's leave does not show in another. */
  lemma LeftAllIn(rows: Rows, u: UserId, successors: map<GroupId, UserId>, h: GroupId)
    requires AllMaySucceed(rows, u, successors)
    ensures var t := LeftAll(rows, u, successors);
            && (h in successors ==>
                  ActiveIn(t, h) == ActiveIn(Left(rows, h, u, successors[h]), h)
                  && AdminsIn(t, h) == AdminsIn(Left(rows, h, u, successors[h]), h))
            && (h !in successors ==> ActiveIn(t, h) == ActiveIn(rows, h) && AdminsIn(t, h) == AdminsIn(rows, h))
  {
    var t := LeftAll(rows, u, successors);
    var one := if h in successors then Left(rows, h, u, successors[h]) else rows;
    forall v: UserId ensures v in ActiveIn(t, h) <==> v in ActiveIn(one, h)
                     ensures v in AdminsIn(t, h) <==> v in AdminsIn(one, h)
    {
      ActiveAreActive(t, h, v);
      ActiveAreActive(one, h, v);
    }
  }

  lemma GroupsOfIn(rows: Rows, u: UserId, h: GroupId)
    ensures h in GroupsOf(rows, u) <==> IsActive(rows, h, u)
  {
    if IsActive(rows, h, u) { assert (h, u).1 == u; }
  }

  lemma DeletedIsOut(rows: Rows, u: UserId, successors: map<GroupId, UserId>, h: GroupId)
    requires AllMaySucceed(rows, u, successors)
    ensures var t := LeftAll(rows, u, successors);
            ActiveIn(t, h) == ActiveIn(rows, h) - {u}
  {
    LeftAllIn(rows, u, successors, h);
    if h in successors {
      assert MaySucceed(rows, h, u, successors[h]);
      LeftIn(rows, h, u, successors[h], h);
    } else {
      ActiveAreActive(rows, h, u);
      GroupsOfIn(rows, u, h);
    }
  }

  lemma DeleteKeepsInv(s: State, e: Event)
    requires Inv(s) && e.DeleteAccount?
    ensures Inv(Step(s, e))
  {
    var t := Step(s, e);
    if t != s {
      forall h: GroupId ensures GroupOk(t, h) && (forall u | u in t.deleted :: u !in ActiveIn(t.rows, h)) {
        assert GroupOk(s, h);
        DeletedIsOut(s.rows, e.user, e.successors, h);
        LeftAllIn(s.rows, e.user, e.successors, h);
        if h in e.successors {
          assert MaySucceed(s.rows, h, e.user, e.successors[h]);
          LeaveKeepsGroup(s, h, e.user, e.successors[h], h);
        }
      }
    }
  }

  lemma StepKeepsInv(s: State, e: Event)
    requires Inv(s)
    ensures Inv(Step(s, e))
  {
    match e
    case Create(_, _, _, _) => CreateKeepsInv(s, e);
    case AskAdd(op, g, actor, users) => AskKeepsInv(s, e);
    case Add(op, now) => if op in s.adds { AddKeepsInv(s, op, now); }
    case Leave(_, _, _) => LeaveKeepsInv(s, e);
    case DeleteAccount(_, _) => DeleteKeepsInv(s, e);
  }

  lemma AskKeepsInv(s: State, e: Event)
    requires Inv(s) && e.AskAdd?
    ensures Inv(Step(s, e))
  {
    var t := Step(s, e);
    forall h: GroupId ensures GroupOk(t, h) {
      assert GroupOk(s, h);
    }
  }

  lemma {:induction false} RunKeepsInv(events: seq<Event>)
    ensures Inv(Run(events))
  {
    if events == [] {
      forall h: GroupId ensures GroupOk(Empty, h) {
      }
    } else {
      RunKeepsInv(events[..|events| - 1]);
      StepKeepsInv(Run(events[..|events| - 1]), events[|events| - 1]);
    }
  }

  // ---- what holds over every run -------------------------------------------------------------------

  /** A group with an active member has an active admin, if and only if those members were not added
   *  after everyone had left. */
  lemma AdminUnlessRefilled(events: seq<Event>, g: GroupId)
    requires ActiveIn(Run(events).rows, g) != {}
    ensures AdminsIn(Run(events).rows, g) != {} <==> g !in Run(events).orphaned
  {
    RunKeepsInv(events);
    assert GroupOk(Run(events), g);
  }

  /** The transaction of an add finds someone in the group, as it does whenever the admin who asked for it
   *  is still there. */
  predicate FindsSomeone(s: State, e: Event) {
    e.Add? && e.op in s.adds ==> ActiveIn(s.rows, s.adds[e.op].group) != {}
  }

  predicate AddsFindSomeone(events: seq<Event>) {
    events != [] ==>
      AddsFindSomeone(events[..|events| - 1]) && FindsSomeone(Run(events[..|events| - 1]), events[|events| - 1])
  }

  /** So while no add lands in a deserted group, every group with an active member has an active admin. */
  lemma {:induction false} AlwaysAnAdmin(events: seq<Event>, g: GroupId)
    requires AddsFindSomeone(events)
    ensures Run(events).orphaned == {}
    ensures ActiveIn(Run(events).rows, g) != {} ==> AdminsIn(Run(events).rows, g) != {}
  {
    if events != [] {
      AlwaysAnAdmin(events[..|events| - 1], g);
    }
    RunKeepsInv(events);
    assert GroupOk(Run(events), g);
  }

  /** Every group with an active member has an active admin. */
  ghost predicate AllAdministered(s: State) {
    forall g: GroupId :: ActiveIn(s.rows, g) != {} ==> AdminsIn(s.rows, g) != {}
  }

  /** The add would bring someone into a group that everyone has left. */
  predicate RefillsDeserted(s: State, e: Event) {
    e.Add? && e.op in s.adds
    && ActiveIn(s.rows, s.adds[e.op].group) == {}
    && s.adds[e.op].users != {} && s.adds[e.op].users !! s.deleted
  }

  lemma AdministeredIffNoneOrphaned(s: State)
    requires GroupsOk(s)
    ensures AllAdministered(s) <==> s.orphaned == {}
  {
    forall g: GroupId ensures (ActiveIn(s.rows, g) != {} ==> AdminsIn(s.rows, g) != {}) <==> g !in s.orphaned {
      assert GroupOk(s, g);
    }
  }

  lemma OrphansAfterStep(s: State, e: Event)
    requires s.orphaned == {}
    ensures Step(s, e).orphaned == {} <==> !RefillsDeserted(s, e)
  {
    if e.Add? && e.op in s.adds {
      assert ActiveIn(s.rows, s.adds[e.op].group) == {} ==>
          s.adds[e.op].users - ActiveIn(s.rows, s.adds[e.op].group) == s.adds[e.op].users;
    }
  }

  /** The one step that leaves members without an admin, in any reachable state where none were: an add
   *  that takes effect in a group nobody is in any more. */
  lemma LosesAdminIffRefill(events: seq<Event>, e: Event)
    requires AllAdministered(Run(events))
    ensures !AllAdministered(Step(Run(events), e)) <==> RefillsDeserted(Run(events), e)
  {
    RunKeepsInv(events);
    StepKeepsInv(Run(events), e);
    AdministeredIffNoneOrphaned(Run(events));
    AdministeredIffNoneOrphaned(Step(Run(events), e));
    OrphansAfterStep(Run(events), e);
  }

  /** A group of one admin, and an add under way: before and after that admin left. */
  function LoneGroup(g: GroupId, admin: UserId, other: UserId, now: int, present: bool): State {
    State({g}, map[(g, admin) := Member(Admin, now, present)], map[0 := Pending(g, {other})], {}, {})
  }

  lemma LoneAdminLeaves(g: GroupId, admin: UserId, other: UserId, now: int)
    ensures Step(LoneGroup(g, admin, other, now, true), Leave(g, admin, admin)) == LoneGroup(g, admin, other, now, false)
  {
    var rows := LoneGroup(g, admin, other, now, true).rows;
    assert ActiveIn(rows, g) == {admin};
    assert Left(rows, g, admin, admin) == LoneGroup(g, admin, other, now, false).rows;
  }

  lemma AddToDeserted(g: GroupId, admin: UserId, other: UserId, now: int)
    ensures var rows := Step(LoneGroup(g, admin, other, now, false), Add(0, now)).rows;
            ActiveIn(rows, g) == {other} && AdminsIn(rows, g) == {}
  {
    var rows := LoneGroup(g, admin, other, now, false).rows;
    assert ActiveIn(rows, g) == {} && AdminsIn(rows, g) == {};
    WithMembersIn(rows, g, {other}, now, g);
    assert {other} - ActiveIn(rows, g) == {other};
  }

  /** Without that, the promise fails: the only admin of a group asks for an add, leaves, and then the add
   *  lands. */
  lemma LateAddLeavesNoAdmin(g: GroupId, admin: UserId, other: UserId, now: int) returns (events: seq<Event>)
    ensures ActiveIn(Run(events).rows, g) == {other} && AdminsIn(Run(events).rows, g) == {}
  {
    var e0, e1, e2, e3 := Create(g, admin, {}, now), AskAdd(0, g, admin, {other}), Leave(g, admin, admin), Add(0, now);
    RunOne([], e0);
    RunOne([] + [e0], e1);
    assert Run([] + [e0] + [e1]) == LoneGroup(g, admin, other, now, true);
    RunOne([] + [e0] + [e1], e2);
    LoneAdminLeaves(g, admin, other, now);
    RunOne([] + [e0] + [e1] + [e2], e3);
    AddToDeserted(g, admin, other, now);
    events := [] + [e0] + [e1] + [e2] + [e3];
  }

  lemma RunOne(events: seq<Event>, e: Event)
    ensures Run(events + [e]) == Step(Run(events), e)
  {
    assert (events + [e])[..|events|] == events;
  }

  /** Promotion happens exactly when the last admin leaves others behind; it makes one member who joined
   *  no later than any other the only admin, and changes nobody else. */
  lemma LeavePromotesTheOldest(rows: Rows, g: GroupId, u: UserId, successor: UserId)
    requires IsActive(rows, g, u) && MaySucceed(rows, g, u, successor)
    ensures var after := Left(rows, g, u, successor);
            var mustPromote := AdminsIn(rows, g) == {u} && ActiveIn(rows, g) != {u};
            && !IsActive(after, g, u)
            && AdminsIn(after, g) == (if mustPromote then {successor} else AdminsIn(rows, g) - {u})
            && (mustPromote ==> JoinedFirst(rows, g, successor, ActiveIn(after, g)))
            && (forall k | k in rows && k != (g, u) && k != (g, successor) :: after[k] == rows[k])
  {
    LeftIn(rows, g, u, successor, g);
    ActiveAreActive(rows, g, u);
    if NeedsSuccessor(rows, g, u) {
      SuccessorStays(rows, g, u, successor);
      SuccessorJoinedFirst(rows, g, u, successor);
    }
  }

  /** None of these members joined before `u`. */
  predicate JoinedFirst(rows: Rows, g: GroupId, u: UserId, members: set<UserId>) {
    && u in members
    && forall v | v in members :: IsActive(rows, g, u) && IsActive(rows, g, v) && rows[(g, u)].joinedAt <= rows[(g, v)].joinedAt
  }

  lemma SuccessorJoinedFirst(rows: Rows, g: GroupId, u: UserId, successor: UserId)
    requires MaySucceed(rows, g, u, successor) && NeedsSuccessor(rows, g, u)
    ensures JoinedFirst(rows, g, successor, ActiveIn(rows, g) - {u})
  {
    SuccessorStays(rows, g, u, successor);
    ActiveAreActive(rows, g, successor);
    LeftRow(rows, g, u);
    forall v | v in ActiveIn(rows, g) - {u}
      ensures IsActive(rows, g, v) && rows[(g, successor)].joinedAt <= rows[(g, v)].joinedAt
    {
      ActiveAreActive(rows, g, v);
    }
  }

  lemma {:induction false} DeletedStay(before: seq<Event>, more: seq<Event>)
    ensures Run(before).deleted <= Run(before + more).deleted
  {
    if more == [] {
      assert before + more == before;
    } else {
      assert (before + more)[..|before + more| - 1] == before + more[..|more| - 1];
      DeletedStay(before, more[..|more| - 1]);
    }
  }

  /** A deleted account is in no group, ever again. */
  lemma DeletedIsOutForGood(before: seq<Event>, more: seq<Event>, u: UserId, g: GroupId)
    requires u in Run(before).deleted
    ensures !IsActive(Run(before + more).rows, g, u)
  {
    DeletedStay(before, more);
    RunKeepsInv(before + more);
    ActiveAreActive(Run(before + more).rows, g, u);
  }

  // ---- the store itself ----------------------------------------------------------------------------

  /** The tables. `CreateGroup`, `AddGroupMembers`, `LeaveConversation` and `DeleteAccount` are one
   *  transaction each. */
  class GroupStore {
    var groups: set<GroupId>
    var rows: Rows
    var adds: map<OpId, Pending>
    var deleted: set<UserId>
    ghost var orphaned: set<GroupId>

    ghost function View(): State
      reads this
    {
      State(groups, rows, adds, deleted, orphaned)
    }

    constructor ()
      ensures View() == Empty
    {
      groups, rows, adds, deleted, orphaned := {}, map[], map[], {}, {};
    }

    method CreateGroup(g: GroupId, creator: UserId, others: set<UserId>, now: int) returns (created: bool)
      requires g !in groups
      modifies this
      ensures View() == Step(old(View()), Create(g, creator, others, now))
      ensures created <==> ({creator} + others) !! old(deleted)
      ensures !created ==> View() == old(View())
      ensures created && (forall k | k in old(rows) :: k.0 != g) ==>
                forall u :: (IsActive(rows, g, u) <==> u == creator || u in others) && (IsAdmin(rows, g, u) <==> u == creator)
      ensures created ==> groups == old(groups) + {g} && (g, creator) in rows && rows[(g, creator)] == Member(Admin, now, true)
      ensures created ==> forall u | u in others && u != creator && !IsActive(old(rows), g, u) :: (g, u) in rows && rows[(g, u)] == Member(Plain, now, true)
      ensures forall k | k in old(rows) && k.0 != g :: k in rows && rows[k] == old(rows)[k]
    {
      if !(({creator} + others) !! deleted) { return false; }
      groups := groups + {g};
      rows := WithMembers(rows, g, others, now)[(g, creator) := Member(Admin, now, true)];
      return true;
    }

    /** `addMembers` up to its transaction: only an admin gets there. */
    method AskAddMembers(op: OpId, g: GroupId, actor: UserId, users: set<UserId>) returns (allowed: bool)
      requires op !in adds
      modifies this`adds
      ensures View() == Step(old(View()), AskAdd(op, g, actor, users))
      ensures allowed <==> IsAdmin(rows, g, actor)
      ensures adds == if allowed then old(adds)[op := Pending(g, users)] else old(adds)
    {
      allowed := (g, actor) in rows && rows[(g, actor)].active && rows[(g, actor)].role == Admin;
      if allowed { adds := adds[op := Pending(g, users)]; }
    }

    /** `addGroupMembers`; the result is who is new, or nobody if one of them has been deleted. */
    method AddGroupMembers(op: OpId, now: int) returns (added: set<UserId>)
      requires op in adds
      modifies this
      ensures View() == Step(old(View()), Add(op, now))
      ensures added <= old(adds)[op].users && added !! ActiveIn(old(rows), old(adds)[op].group)
      ensures forall u | u in added ::
                (old(adds)[op].group, u) in rows && rows[(old(adds)[op].group, u)] == Member(Plain, now, true)
                && u !in deleted && !IsActive(old(rows), old(adds)[op].group, u)
      ensures forall k | k in old(rows) && !(k.0 == old(adds)[op].group && k.1 in added) :: k in rows && rows[k] == old(rows)[k]
      ensures forall k | k in rows && k !in old(rows) :: k.0 == old(adds)[op].group && k.1 in added
      ensures old(adds)[op].users !! deleted ==>
                forall u | u in old(adds)[op].users :: IsActive(rows, old(adds)[op].group, u)
      ensures adds == old(adds) - {op} && groups == old(groups) && deleted == old(deleted)
    {
      var p := adds[op];
      adds := adds - {op};
      var toAdd := p.users - ActiveIn(rows, p.group);
      if toAdd == {} || !(toAdd !! deleted) {
        forall u | u in p.users && u !in toAdd ensures IsActive(rows, p.group, u) {
          ActiveAreActive(rows, p.group, u);
        }
        return {};
      }
      if ActiveIn(rows, p.group) == {} { orphaned := orphaned + {p.group}; }
      forall u: UserId ensures u in ActiveIn(rows, p.group) <==> IsActive(rows, p.group, u) {
        ActiveAreActive(rows, p.group, u);
      }
      rows := WithMembers(rows, p.group, p.users, now);
      return toAdd;
    }

    /** `select ... order by joined_at limit 1` over the active members. */
    method OldestMember(g: GroupId) returns (oldest: UserId)
      requires ActiveIn(rows, g) != {}
      ensures IsOldest(rows, g, oldest)
    {
      var rest := ActiveIn(rows, g);
      oldest :| oldest in rest;
      ActiveAreActive(rows, g, oldest);
      while rest != {}
        invariant rest <= ActiveIn(rows, g) && IsActive(rows, g, oldest)
        invariant forall v | v in ActiveIn(rows, g) - rest ::
          IsActive(rows, g, v) && rows[(g, oldest)].joinedAt <= rows[(g, v)].joinedAt
        decreases |rest|
      {
        var v :| v in rest;
        rest := rest - {v};
        ActiveAreActive(rows, g, v);
        if rows[(g, v)].joinedAt < rows[(g, oldest)].joinedAt { oldest := v; }
      }
    }

    /** The statements of `leaveConversation`. */
    method LeaveConversation(g: GroupId, u: UserId) returns (left: bool, promoted: Option<UserId>, ghost successor: UserId)
      modifies this`rows
      ensures MaySucceed(old(rows), g, u, successor) && rows == Left(old(rows), g, u, successor)
      ensures left <==> IsActive(old(rows), g, u)
      ensures promoted == if NeedsSuccessor(old(rows), g, u) then Some(successor) else None
      ensures !left ==> rows == old(rows)
      ensures left ==> (g, u) in rows && rows[(g, u)] == old(rows)[(g, u)].(active := false)
      ensures promoted.Some? <==>
                IsAdmin(old(rows), g, u) && (forall v | IsAdmin(old(rows), g, v) :: v == u)
                && exists v :: IsActive(old(rows), g, v) && v != u
      ensures promoted.Some? ==>
                promoted.value != u && IsActive(old(rows), g, promoted.value)
                && rows == old(rows)[(g, u) := old(rows)[(g, u)].(active := false)][(g, promoted.value) := old(rows)[(g, promoted.value)].(role := Admin)]
                && forall v | IsActive(old(rows), g, v) && v != u :: old(rows)[(g, promoted.value)].joinedAt <= old(rows)[(g, v)].joinedAt
      ensures left && promoted.None? ==> rows == old(rows)[(g, u) := old(rows)[(g, u)].(active := false)]
    {
      promoted, successor := None, u;
      left := (g, u) in rows && rows[(g, u)].active;
      NeedsSuccessorIff(rows, g, u);
      ActiveAreActive(rows, g, u);
      if !left { return; }
      var role := rows[(g, u)].role;
      ghost var before := rows;
      rows := rows[(g, u) := rows[(g, u)].(active := false)];
      LeftRow(before, g, u);
      if role != Admin || AdminsIn(rows, g) != {} || ActiveIn(rows, g) == {} { return; }
      var oldest := OldestMember(g);
      rows := rows[(g, oldest) := rows[(g, oldest)].(role := Admin)];
      promoted, successor := Some(oldest), oldest;
    }

    /** `leave`, and `removeMember` with someone else as `u`. */
    method LeaveGroup(g: GroupId, u: UserId) returns (left: bool, promoted: Option<UserId>, ghost successor: UserId)
      modifies this
      ensures View() == Step(old(View()), Leave(g, u, successor)) && MaySucceed(old(rows), g, u, successor)
      ensures !IsActive(rows, g, u) && (left <==> IsActive(old(rows), g, u))
      ensures promoted == if NeedsSuccessor(old(rows), g, u) then Some(successor) else None
    {
      left, promoted, successor := LeaveConversation(g, u);
      LeftIn(old(rows), g, u, successor, g);
      ActiveAreActive(rows, g, u);
      orphaned := StillOrphaned(orphaned, rows);
    }

    /** The loop of `deleteAccount`. */
    method LeaveEverything(u: UserId) returns (ghost successors: map<GroupId, UserId>)
      modifies this`rows
      ensures AllMaySucceed(old(rows), u, successors) && rows == LeftAll(old(rows), u, successors)
    {
      var rest := GroupsOf(rows, u);
      successors := map[];
      while rest != {}
        invariant rest <= GroupsOf(old(rows), u) && successors.Keys == GroupsOf(old(rows), u) - rest
        invariant forall g | g in successors :: MaySucceed(old(rows), g, u, successors[g])
        invariant rows == LeftAll(old(rows), u, successors)
        decreases |rest|
      {
        var g :| g in rest;
        rest := rest - {g};
        var left, promoted, successor := LeaveConversation(g, u);
        LeftOneMore(old(rows), u, successors, g, successor);
        successors := successors[g := successor];
      }
    }

    /** `deleteAccount` leaves every group and erases the account, all in one transaction. */
    method DeleteAccount(u: UserId) returns (ghost successors: map<GroupId, UserId>)
      modifies this
      ensures View() == Step(old(View()), Event.DeleteAccount(u, successors))
      ensures u in deleted && forall g: GroupId :: u !in ActiveIn(rows, g)
    {
      successors := LeaveEverything(u);
      forall g: GroupId ensures u !in ActiveIn(rows, g) {
        DeletedIsOut(old(rows), u, successors, g);
      }
      deleted := deleted + {u};
      orphaned := StillOrphaned(orphaned, rows);
    }
  }

  lemma NeedsSuccessorIff(rows: Rows, g: GroupId, u: UserId)
    ensures NeedsSuccessor(rows, g, u) <==>
              IsAdmin(rows, g, u) && (forall v | IsAdmin(rows, g, v) :: v == u) && exists v :: IsActive(rows, g, v) && v != u
  {
    forall v: UserId
      ensures v in ActiveIn(rows, g) <==> IsActive(rows, g, v)
      ensures v in AdminsIn(rows, g) <==> IsAdmin(rows, g, v)
    {
      ActiveAreActive(rows, g, v);
    }
    if IsAdmin(rows, g, u) && (forall v | IsAdmin(rows, g, v) :: v == u) {
      assert AdminsIn(rows, g) == {u};
    }
    if NeedsSuccessor(rows, g, u) {
      assert ActiveIn(rows, g) == (ActiveIn(rows, g) - {u}) + {u};
      var v :| v in ActiveIn(rows, g) - {u};
      assert IsActive(rows, g, v);
    }
  }

  /** After the first statement of a leave, the remaining admins and members can be counted. */
  lemma LeftRow(rows: Rows, g: GroupId, u: UserId)
    requires IsActive(rows, g, u)
    ensures AdminsIn(Deactivated(rows, g, u), g) == AdminsIn(rows, g) - {u}
    ensures ActiveIn(Deactivated(rows, g, u), g) == ActiveIn(rows, g) - {u}
    ensures u in ActiveIn(rows, g)
  {
    var t := Deactivated(rows, g, u);
    ActiveAreActive(rows, g, u);
    forall v: UserId
      ensures v in ActiveIn(t, g) <==> v in ActiveIn(rows, g) && v != u
      ensures v in AdminsIn(t, g) <==> v in AdminsIn(rows, g) && v != u
    {
      ActiveAreActive(t, g, v);
      ActiveAreActive(rows, g, v);
    }
  }

  ghost predicate SameRowsOf(rows: Rows, more: Rows, g: GroupId) {
    forall u: UserId :: ((g, u) in rows <==> (g, u) in more) && ((g, u) in rows ==> rows[(g, u)] == more[(g, u)])
  }

  lemma SameQueries(rows: Rows, more: Rows, g: GroupId)
    requires SameRowsOf(rows, more, g)
    ensures ActiveIn(rows, g) == ActiveIn(more, g) && AdminsIn(rows, g) == AdminsIn(more, g)
  {
    forall v: UserId
      ensures v in ActiveIn(rows, g) <==> v in ActiveIn(more, g)
      ensures v in AdminsIn(rows, g) <==> v in AdminsIn(more, g)
    {
      ActiveAreActive(rows, g, v);
      ActiveAreActive(more, g, v);
    }
  }

  /** What a leave looks at and changes is one group's rows. */
  lemma LeaveIsLocal(rows: Rows, more: Rows, g: GroupId, u: UserId, successor: UserId)
    requires SameRowsOf(rows, more, g) && MaySucceed(more, g, u, successor)
    ensures MaySucceed(rows, g, u, successor)
    ensures SameRowsOf(Left(rows, g, u, successor), Left(more, g, u, successor), g)
  {
    SameQueries(rows, more, g);
    assert NeedsSuccessor(rows, g, u) <==> NeedsSuccessor(more, g, u);
    if NeedsSuccessor(more, g, u) {
      SameQueries(Deactivated(rows, g, u), Deactivated(more, g, u), g);
    }
  }

  lemma LeftOneMore(rows: Rows, u: UserId, successors: map<GroupId, UserId>, g: GroupId, successor: UserId)
    requires g !in successors && MaySucceed(LeftAll(rows, u, successors), g, u, successor)
    ensures MaySucceed(rows, g, u, successor)
    ensures Left(LeftAll(rows, u, successors), g, u, successor) == LeftAll(rows, u, successors[g := successor])
  {
    var done := LeftAll(rows, u, successors);
    LeaveIsLocal(rows, done, g, u, successor);
    var l, r := Left(done, g, u, successor), LeftAll(rows, u, successors[g := successor]);
    assert l.Keys == rows.Keys == r.Keys;
    forall k | k in rows ensures l[k] == r[k] {
      if k.0 != g { assert l[k] == done[k]; }
    }
  }
}

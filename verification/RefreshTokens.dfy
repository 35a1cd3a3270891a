/**
 * Refresh-token families on the server (apps/api/src/auth/auth.service.ts and
 * apps/api/src/db/refresh-tokens.ts).
 *
 * A sign-in starts a family; every refresh revokes the presented token and inserts its successor in
 * the same family. The statements of one request are separate steps, so any number of requests, on
 * any number of API nodes, may interleave between them.
 */
module RefreshTokens {
  import opened Common

  type TokenId = nat
  type FamilyId = nat
  type UserId = nat
  type RequestId = nat

  /** One row of `refresh_tokens`. */
  datatype Row = Row(user: UserId, family: FamilyId, expiresAt: int, revoked: bool)

  /** Where an unfinished request stands between two of its statements. */
  datatype Request =
    | Found(token: TokenId, user: UserId, family: FamilyId)             // refresh: row read, not revoked yet
    | Rotating(user: UserId, family: FamilyId, parent: Option<TokenId>) // revoke won (or a sign-in), insert to come
    | EndingFamily(family: FamilyId)                                    // a lost revoke, or a logout

  /** An insert into `refresh_tokens`; `parent` is the token whose revoke allowed it. */
  datatype Issue = Issue(token: TokenId, family: FamilyId, parent: Option<TokenId>)

  /** `issued` is the history of inserts, which the table itself does not keep. */
  datatype State = State(
    rows: map<TokenId, Row>,
    requests: map<RequestId, Request>,
    families: set<FamilyId>,
    issued: seq<Issue>)

  const Empty := State(map[], map[], {}, [])

  datatype Event =
    | SignIn(req: RequestId, user: UserId, family: FamilyId)
    | Find(req: RequestId, token: TokenId, now: int)
    | Revoke(req: RequestId)
    | Insert(req: RequestId, token: TokenId, expiresAt: int, allowed: bool)
    | FindForLogout(req: RequestId, token: TokenId)
    | EndFamily(req: RequestId)
    | EndUser(user: UserId)
    | EndUserExcept(user: UserId, keep: Option<FamilyId>)
    | DeleteUser(user: UserId)

  // ---- what one statement does -----------------------------------------------------------------

  predicate Live(rows: map<TokenId, Row>, t: TokenId) {
    t in rows && !rows[t].revoked
  }

  function RevokeOne(rows: map<TokenId, Row>, t: TokenId): map<TokenId, Row>
    requires t in rows
  {
    rows[t := rows[t].(revoked := true)]
  }

  function RevokeWhere(rows: map<TokenId, Row>, p: Row -> bool): (r: map<TokenId, Row>)
    ensures r.Keys == rows.Keys
    ensures forall t | t in rows :: r[t] == if p(rows[t]) then rows[t].(revoked := true) else rows[t]
  {
    map t | t in rows :: if p(rows[t]) then rows[t].(revoked := true) else rows[t]
  }

  predicate IsIssued(issued: seq<Issue>, t: TokenId) {
    exists i :: 0 <= i < |issued| && issued[i].token == t
  }

  function OfFamily(f: FamilyId): Row -> bool {
    (r: Row) => r.family == f
  }

  function OfUser(u: UserId): Row -> bool {
    (r: Row) => r.user == u
  }

  function OfUserExcept(u: UserId, keep: Option<FamilyId>): Row -> bool {
    (r: Row) => r.user == u && (keep.Some? ==> r.family != keep.value)
  }

  /** One statement (or one synchronous stretch) of one request. A statement of a request that is
   *  not at that point, or an id that is not new, does nothing. */
  function Step(s: State, e: Event): State {
    match e
    case SignIn(req, user, family) =>
      if req in s.requests || family in s.families then s
      else s.(requests := s.requests[req := Rotating(user, family, None)], families := s.families + {family})
    case Find(req, t, now) =>
      if req in s.requests || t !in s.rows || s.rows[t].expiresAt <= now then s
      else s.(requests := s.requests[req := Found(t, s.rows[t].user, s.rows[t].family)])
    case Revoke(req) =>
      if req !in s.requests || !s.requests[req].Found? then s
      else
        var r := s.requests[req];
        if Live(s.rows, r.token)
        then s.(rows := RevokeOne(s.rows, r.token),
                requests := s.requests[req := Rotating(r.user, r.family, Some(r.token))])
        else s.(requests := s.requests[req := EndingFamily(r.family)])
    case Insert(req, t, expiresAt, allowed) =>
      if req !in s.requests || !s.requests[req].Rotating? || IsIssued(s.issued, t) then s
      else
        var r := s.requests[req];
        if !allowed then s.(requests := s.requests - {req})
        else s.(rows := s.rows[t := Row(r.user, r.family, expiresAt, false)],
                requests := s.requests - {req},
                issued := s.issued + [Issue(t, r.family, r.parent)])
    case FindForLogout(req, t) =>
      if req in s.requests || t !in s.rows then s
      else s.(requests := s.requests[req := EndingFamily(s.rows[t].family)])
    case EndFamily(req) =>
      if req !in s.requests || !s.requests[req].EndingFamily? then s
      else s.(rows := RevokeWhere(s.rows, OfFamily(s.requests[req].family)),
              requests := s.requests - {req})
    case EndUser(user) => s.(rows := RevokeWhere(s.rows, OfUser(user)))
    case EndUserExcept(user, keep) => s.(rows := RevokeWhere(s.rows, OfUserExcept(user, keep)))
    case DeleteUser(user) =>
      s.(rows := map t | t in s.rows && s.rows[t].user != user :: s.rows[t])
  }

  function Run(s: State, events: seq<Event>): State {
    if events == [] then s else Step(Run(s, events[..|events| - 1]), events[|events| - 1])
  }

  // ---- the invariant ---------------------------------------------------------------------------

  /** The newest token of a family, in order of insertion. */
  function Newest(issued: seq<Issue>, f: FamilyId): (r: Option<TokenId>)
    ensures r.Some? ==> exists i :: 0 <= i < |issued| && issued[i].token == r.value && issued[i].family == f
    ensures r.None? ==> forall i | 0 <= i < |issued| :: issued[i].family != f
  {
    if issued == [] then None
    else
      var last := issued[|issued| - 1];
      if last.family == f then Some(last.token) else Newest(issued[..|issued| - 1], f)
  }

  /** No token id is inserted twice. */
  predicate DistinctTokens(issued: seq<Issue>) {
    forall i, j | 0 <= i < j < |issued| :: issued[i].token != issued[j].token
  }

  /** Each token's parent is the newest token its family had when it was inserted: a family is a
   *  chain, with no fork and no second root. */
  ghost predicate IsChain(issued: seq<Issue>) {
    forall j | 0 <= j < |issued| :: issued[j].parent == Newest(issued[..j], issued[j].family)
  }

  predicate IssuedIn(issued: seq<Issue>, t: TokenId, f: FamilyId) {
    exists i :: 0 <= i < |issued| && issued[i].token == t && issued[i].family == f
  }

  /** Every row, and every row a request has read, came from an insert into its family. */
  ghost predicate Recorded(s: State) {
    && (forall i | 0 <= i < |s.issued| :: s.issued[i].family in s.families)
    && (forall t | t in s.rows :: IssuedIn(s.issued, t, s.rows[t].family))
    && (forall q | q in s.requests :: s.requests[q].family in s.families)
    && (forall q | q in s.requests && s.requests[q].Found? ::
          IssuedIn(s.issued, s.requests[q].token, s.requests[q].family))
  }

  /** The live token of a family is its newest one. */
  ghost predicate LiveIsNewest(s: State) {
    forall t | Live(s.rows, t) :: Newest(s.issued, s.rows[t].family) == Some(t)
  }

  predicate RotatingIn(s: State, q: RequestId, f: FamilyId) {
    q in s.requests && s.requests[q].Rotating? && s.requests[q].family == f
  }

  predicate LiveIn(s: State, t: TokenId, f: FamilyId) {
    Live(s.rows, t) && s.rows[t].family == f
  }

  /** A family being rotated has no live token, no second rotation, and the token being replaced is
   *  its newest. */
  ghost predicate RotationsAlone(s: State) {
    && (forall q: RequestId, f: FamilyId | RotatingIn(s, q, f) :: s.requests[q].parent == Newest(s.issued, f))
    && (forall q, t, f | RotatingIn(s, q, f) :: !LiveIn(s, t, f))
    && (forall p, q, f | RotatingIn(s, p, f) && RotatingIn(s, q, f) :: p == q)
  }

  ghost predicate Inv(s: State) {
    && DistinctTokens(s.issued)
    && IsChain(s.issued)
    && Recorded(s)
    && LiveIsNewest(s)
    && RotationsAlone(s)
  }

  // ---- every step keeps it -----------------------------------------------------------------------

  lemma NewestAfterInsert(issued: seq<Issue>, x: Issue)
    ensures forall f {:trigger Newest(issued + [x], f)} ::
      Newest(issued + [x], f) == if x.family == f then Some(x.token) else Newest(issued, f)
  {
    assert (issued + [x])[..|issued|] == issued;
  }

  lemma IssuedAfterInsert(issued: seq<Issue>, x: Issue)
    ensures forall t, f {:trigger IssuedIn(issued + [x], t, f)} ::
      IssuedIn(issued + [x], t, f) <==> IssuedIn(issued, t, f) || (t == x.token && f == x.family)
  {
    var all := issued + [x];
    assert all[|issued|] == x;
    forall t, f | IssuedIn(issued, t, f) ensures IssuedIn(all, t, f) {
      var i :| 0 <= i < |issued| && issued[i].token == t && issued[i].family == f;
      assert all[i] == issued[i];
    }
  }

  lemma InsertKeepsChain(issued: seq<Issue>, x: Issue)
    requires DistinctTokens(issued) && IsChain(issued)
    requires !IsIssued(issued, x.token) && x.parent == Newest(issued, x.family)
    ensures DistinctTokens(issued + [x]) && IsChain(issued + [x])
  {
    var all := issued + [x];
    forall j | 0 <= j < |all| ensures all[j].parent == Newest(all[..j], all[j].family) {
      if j < |issued| {
        assert all[..j] == issued[..j];
      } else {
        assert all[..j] == issued;
      }
    }
  }

  lemma InsertKeepsRecorded(s: State, q: RequestId, x: Issue, row: Row)
    requires Recorded(s) && RotatingIn(s, q, x.family) && row.family == x.family
    ensures Recorded(s.(rows := s.rows[x.token := row], requests := s.requests - {q}, issued := s.issued + [x]))
  {
    IssuedAfterInsert(s.issued, x);
  }

  lemma InsertKeepsRotations(s: State, q: RequestId, x: Issue, row: Row)
    requires LiveIsNewest(s) && RotationsAlone(s) && RotatingIn(s, q, x.family) && row.family == x.family
    ensures LiveIsNewest(s.(rows := s.rows[x.token := row], requests := s.requests - {q}, issued := s.issued + [x]))
    ensures RotationsAlone(s.(rows := s.rows[x.token := row], requests := s.requests - {q}, issued := s.issued + [x]))
  {
    var s' := s.(rows := s.rows[x.token := row], requests := s.requests - {q}, issued := s.issued + [x]);
    NewestAfterInsert(s.issued, x);
    forall t | Live(s'.rows, t) ensures Newest(s'.issued, s'.rows[t].family) == Some(t) {
      if t != x.token {
        assert LiveIn(s, t, s.rows[t].family);
      }
    }
    forall p: RequestId, f: FamilyId | RotatingIn(s', p, f)
      ensures RotatingIn(s, p, f) && f != x.family
    {
      assert RotatingIn(s, p, f) && p != q;
    }
    forall p: RequestId, t: TokenId, f: FamilyId | RotatingIn(s', p, f) ensures !LiveIn(s', t, f) {
      if t != x.token {
        assert !LiveIn(s, t, f);
      }
    }
  }

  lemma InsertKeepsInv(s: State, e: Event)
    requires Inv(s) && e.Insert?
    ensures Inv(Step(s, e))
  {
    var s' := Step(s, e);
    if s'.issued == s.issued {
      DropKeepsRotations(s, s');
    } else {
      var r := s.requests[e.req];
      var x := Issue(e.token, r.family, r.parent);
      assert RotatingIn(s, e.req, x.family);
      InsertKeepsChain(s.issued, x);
      InsertKeepsRecorded(s, e.req, x, Row(r.user, r.family, e.expiresAt, false));
      InsertKeepsRotations(s, e.req, x, Row(r.user, r.family, e.expiresAt, false));
    }
  }

  /** Fewer live tokens and fewer rotations, nothing inserted. */
  lemma DropKeepsRotations(s: State, s': State)
    requires LiveIsNewest(s) && RotationsAlone(s) && s'.issued == s.issued
    requires forall t | Live(s'.rows, t) :: Live(s.rows, t) && s'.rows[t].family == s.rows[t].family
    requires forall q | q in s'.requests && s'.requests[q].Rotating? :: q in s.requests && s'.requests[q] == s.requests[q]
    ensures LiveIsNewest(s') && RotationsAlone(s')
  {
    forall t: TokenId, f: FamilyId | LiveIn(s', t, f) ensures LiveIn(s, t, f) {
    }
    forall q: RequestId, f: FamilyId | RotatingIn(s', q, f) ensures RotatingIn(s, q, f) {
    }
  }

  /** A won revoke: the family's live token becomes its rotation. */
  lemma WonRevokeKeepsRotations(s: State, q: RequestId)
    requires LiveIsNewest(s) && RotationsAlone(s)
    requires q in s.requests && s.requests[q].Found?
    requires LiveIn(s, s.requests[q].token, s.requests[q].family)
    ensures LiveIsNewest(Step(s, Revoke(q))) && RotationsAlone(Step(s, Revoke(q)))
  {
    var s' := Step(s, Revoke(q));
    var r := s.requests[q];
    forall t: TokenId, f: FamilyId | LiveIn(s', t, f) ensures LiveIn(s, t, f) && f != r.family {
      assert Live(s.rows, t) && t != r.token;
    }
    forall p: RequestId, f: FamilyId | RotatingIn(s', p, f) ensures RotatingIn(s, p, f) || (p == q && f == r.family) {
    }
    assert forall p | RotatingIn(s, p, r.family) :: !LiveIn(s, r.token, r.family);
  }

  /** A sign-in: nothing of the new family exists yet. */
  lemma SignInKeepsRotations(s: State, e: Event)
    requires Recorded(s) && LiveIsNewest(s) && RotationsAlone(s) && e.SignIn?
    ensures LiveIsNewest(Step(s, e)) && RotationsAlone(Step(s, e))
  {
    var s' := Step(s, e);
    if s' != s {
      forall p: RequestId, f: FamilyId | RotatingIn(s', p, f) ensures RotatingIn(s, p, f) || (p == e.req && f == e.family) {
      }
      assert forall p | p in s.requests :: s.requests[p].family != e.family;
      forall t: TokenId, f: FamilyId | LiveIn(s', t, f) ensures LiveIn(s, t, f) && f != e.family {
        assert IssuedIn(s.issued, t, f);
      }
    }
  }

  lemma RevokeKeepsInv(s: State, p: Row -> bool, q: set<RequestId>)
    requires Inv(s)
    ensures Inv(s.(rows := RevokeWhere(s.rows, p), requests := s.requests - q))
  {
    DropKeepsRotations(s, s.(rows := RevokeWhere(s.rows, p), requests := s.requests - q));
  }

  lemma RevokeOneKeepsInv(s: State, q: RequestId)
    requires Inv(s)
    ensures Inv(Step(s, Revoke(q)))
  {
    if q in s.requests && s.requests[q].Found? {
      var r := s.requests[q];
      if Live(s.rows, r.token) {
        IssuedOnce(s.issued, r.token, r.family, s.rows[r.token].family);
        WonRevokeKeepsRotations(s, q);
      } else {
        DropKeepsRotations(s, Step(s, Revoke(q)));
      }
    }
  }

  lemma IssuedOnce(issued: seq<Issue>, t: TokenId, f: FamilyId, g: FamilyId)
    requires DistinctTokens(issued) && IssuedIn(issued, t, f) && IssuedIn(issued, t, g)
    ensures f == g
  {
  }

  lemma EndKeepsInv(s: State, e: Event)
    requires Inv(s) && (e.EndFamily? || e.EndUser? || e.EndUserExcept?)
    ensures Inv(Step(s, e))
  {
    assert s.requests - {} == s.requests;
    if e.EndFamily? {
      if Step(s, e) != s { RevokeKeepsInv(s, OfFamily(s.requests[e.req].family), {e.req}); }
    } else if e.EndUser? {
      RevokeKeepsInv(s, OfUser(e.user), {});
    } else {
      RevokeKeepsInv(s, OfUserExcept(e.user, e.keep), {});
    }
  }

  lemma ReadKeepsInv(s: State, e: Event)
    requires Inv(s) && (e.Find? || e.FindForLogout? || e.DeleteUser?)
    ensures Inv(Step(s, e))
  {
    DropKeepsRotations(s, Step(s, e));
  }

  lemma StepKeepsInv(s: State, e: Event)
    requires Inv(s)
    ensures Inv(Step(s, e))
  {
    match e
    case Insert(_, _, _, _) => InsertKeepsInv(s, e);
    case Revoke(q) => RevokeOneKeepsInv(s, q);
    case SignIn(_, _, _) => SignInKeepsInv(s, e);
    case Find(_, _, _) => ReadKeepsInv(s, e);
    case FindForLogout(_, _) => ReadKeepsInv(s, e);
    case DeleteUser(_) => ReadKeepsInv(s, e);
    case _ => EndKeepsInv(s, e);
  }

  lemma SignInKeepsInv(s: State, e: Event)
    requires Inv(s) && e.SignIn?
    ensures Inv(Step(s, e))
  {
    SignInKeepsRotations(s, e);
  }

  lemma {:induction false} RunKeepsInv(events: seq<Event>)
    ensures Inv(Run(Empty, events))
  {
    if events != [] {
      RunKeepsInv(events[..|events| - 1]);
      StepKeepsInv(Run(Empty, events[..|events| - 1]), events[|events| - 1]);
    }
  }

  // ---- what the invariant says -------------------------------------------------------------------

  function LiveTokens(s: State, f: FamilyId): set<TokenId> {
    set t | t in s.rows && LiveIn(s, t, f)
  }

  function Rotations(s: State, f: FamilyId): set<RequestId> {
    set q | q in s.requests && RotatingIn(s, q, f)
  }

  lemma SingletonOrEmpty<T>(a: set<T>)
    requires forall x, y | x in a && y in a :: x == y
    ensures |a| <= 1
  {
    if a != {} {
      var x :| x in a;
      assert a == {x};
    }
  }

  /** In every reachable state a family has at most one live token or one rotation, never both. */
  lemma OneLiveOrRotating(events: seq<Event>, f: FamilyId)
    ensures |LiveTokens(Run(Empty, events), f)| + |Rotations(Run(Empty, events), f)| <= 1
  {
    RunKeepsInv(events);
    var s := Run(Empty, events);
    forall t, u | t in LiveTokens(s, f) && u in LiveTokens(s, f) ensures t == u {
      assert Newest(s.issued, f) == Some(t);
    }
    SingletonOrEmpty(LiveTokens(s, f));
    SingletonOrEmpty(Rotations(s, f));
    assert forall q: RequestId, t: TokenId | RotatingIn(s, q, f) :: !LiveIn(s, t, f);
  }

  lemma NewestIsLate(issued: seq<Issue>, f: FamilyId, j: nat)
    requires j < |issued| && issued[j].family == f
    ensures exists i :: j <= i < |issued| && Newest(issued, f) == Some(issued[i].token)
  {
    var last := |issued| - 1;
    if issued[last].family != f {
      NewestIsLate(issued[..last], f, j);
      var i :| j <= i < last && Newest(issued[..last], f) == Some(issued[..last][i].token);
      assert issued[i] == issued[..last][i];
    }
  }

  /** No token is ever rotated twice: two inserts never name the same parent. */
  lemma OneSuccessor(events: seq<Event>, j: nat, k: nat)
    requires j < k < |Run(Empty, events).issued|
    requires Run(Empty, events).issued[j].parent.Some?
    ensures Run(Empty, events).issued[j].parent != Run(Empty, events).issued[k].parent
  {
    RunKeepsInv(events);
    ParentsDiffer(Run(Empty, events).issued, j, k);
  }

  /** A later token of the family replaces one that is no older than `j`. */
  lemma LaterParent(issued: seq<Issue>, j: nat, k: nat) returns (i: nat)
    requires IsChain(issued) && j < k < |issued| && issued[k].family == issued[j].family
    ensures j <= i < k && issued[k].parent == Some(issued[i].token)
  {
    NewestIsLate(issued[..k], issued[k].family, j);
    i :| j <= i < k && Newest(issued[..k], issued[k].family) == Some(issued[..k][i].token);
    assert issued[..k][i] == issued[i];
  }

  lemma ParentsDiffer(issued: seq<Issue>, j: nat, k: nat)
    requires DistinctTokens(issued) && IsChain(issued) && j < k < |issued| && issued[j].parent.Some?
    ensures issued[j].parent != issued[k].parent
  {
    if issued[k].parent.Some? {
      ParentIsEarlier(issued, j);
      var a :| 0 <= a < j && Some(issued[a].token) == issued[j].parent && issued[a].family == issued[j].family;
      if issued[k].family == issued[j].family {
        var i := LaterParent(issued, j, k);
        assert issued[i].token != issued[a].token;
      } else {
        ParentIsEarlier(issued, k);
        var i :| 0 <= i < k && Some(issued[i].token) == issued[k].parent && issued[i].family == issued[k].family;
        OtherFamilyOtherToken(issued, a, i);
      }
    }
  }

  lemma OtherFamilyOtherToken(issued: seq<Issue>, a: nat, b: nat)
    requires DistinctTokens(issued) && a < |issued| && b < |issued| && issued[a].family != issued[b].family
    ensures issued[a].token != issued[b].token
  {
    if a < b { assert issued[a].token != issued[b].token; } else { assert issued[b].token != issued[a].token; }
  }

  lemma ParentIsEarlier(issued: seq<Issue>, j: nat)
    requires IsChain(issued) && j < |issued| && issued[j].parent.Some?
    ensures exists i :: 0 <= i < j && Some(issued[i].token) == issued[j].parent && issued[i].family == issued[j].family
  {
    var i :| 0 <= i < |issued[..j]| && Some(issued[..j][i].token) == issued[j].parent && issued[..j][i].family == issued[j].family;
    assert issued[i] == issued[..j][i];
  }

  // ---- a session that is over stays over ---------------------------------------------------------

  /** Nothing of the family is live, and nothing under way can make it so. */
  ghost predicate Dead(s: State, f: FamilyId) {
    && f in s.families
    && (forall t: TokenId :: !LiveIn(s, t, f))
    && (forall q: RequestId :: !RotatingIn(s, q, f))
  }

  lemma StepKeepsDead(s: State, e: Event, f: FamilyId)
    requires Inv(s) && Dead(s, f)
    ensures Dead(Step(s, e), f)
  {
    var s' := Step(s, e);
    forall t: TokenId ensures !LiveIn(s', t, f) {
      assert !LiveIn(s, t, f);
      assert e.Insert? ==> !RotatingIn(s, e.req, f);
    }
    forall q: RequestId ensures !RotatingIn(s', q, f) {
      assert !RotatingIn(s, q, f);
      if e.Revoke? && q == e.req && q in s.requests && s.requests[q].Found? {
        var r := s.requests[q];
        assert !LiveIn(s, r.token, f);
        if r.token in s.rows {
          IssuedOnce(s.issued, r.token, r.family, s.rows[r.token].family);
        }
      }
    }
  }

  lemma {:induction false} DeadForever(s: State, more: seq<Event>, f: FamilyId)
    requires Inv(s) && Dead(s, f)
    ensures Inv(Run(s, more)) && Dead(Run(s, more), f)
  {
    if more != [] {
      DeadForever(s, more[..|more| - 1], f);
      StepKeepsInv(Run(s, more[..|more| - 1]), more[|more| - 1]);
      StepKeepsDead(Run(s, more[..|more| - 1]), more[|more| - 1], f);
    }
  }

  /** The family is being ended by `req`: a logout, or a presented token that turned out dead. */
  predicate Ending(s: State, req: RequestId, f: FamilyId) {
    req in s.requests && s.requests[req] == EndingFamily(f)
  }

  /** No continuation ever has a live token of the family again. */
  ghost predicate OverForGood(s: State, f: FamilyId) {
    forall more: seq<Event>, t: TokenId :: !LiveIn(Run(s, more), t, f)
  }

  /** Exactly when ending a family (a logout, or the reuse alarm) ends the session for good: if and
   *  only if no rotation of it was between its revoke and its insert. */
  lemma EndFamilyIsFinal(events: seq<Event>, req: RequestId, f: FamilyId)
    requires Ending(Run(Empty, events), req, f)
    ensures Rotations(Run(Empty, events), f) == {} <==> OverForGood(Step(Run(Empty, events), EndFamily(req)), f)
  {
    RunKeepsInv(events);
    EndFamilyDecides(Run(Empty, events), req, f);
  }

  lemma EndFamilyDecides(s: State, req: RequestId, f: FamilyId)
    requires Inv(s) && Ending(s, req, f)
    ensures Rotations(s, f) == {} <==> OverForGood(Step(s, EndFamily(req)), f)
  {
    if Rotations(s, f) == {} {
      EndFamilyKills(s, req, f);
      StepKeepsInv(s, EndFamily(req));
      DeadIsOver(Step(s, EndFamily(req)), f);
    } else {
      var q :| q in Rotations(s, f);
      var e, t := RotationOutlives(s, req, q, f);
    }
  }

  lemma DeadIsOver(s: State, f: FamilyId)
    requires Inv(s) && Dead(s, f)
    ensures OverForGood(s, f)
  {
    forall more: seq<Event>, t: TokenId ensures !LiveIn(Run(s, more), t, f) {
      DeadForever(s, more, f);
    }
  }

  lemma EndFamilyKills(s: State, req: RequestId, f: FamilyId)
    requires Recorded(s) && Ending(s, req, f) && Rotations(s, f) == {}
    ensures Dead(Step(s, EndFamily(req)), f)
  {
    forall q: RequestId ensures !RotatingIn(Step(s, EndFamily(req)), q, f) {
      assert q in Rotations(s, f) <==> RotatingIn(s, q, f);
    }
  }

  /** A rotation that had already revoked its token inserts a live successor after the family ended. */
  lemma RotationOutlives(s: State, req: RequestId, q: RequestId, f: FamilyId) returns (e: Event, t: TokenId)
    requires Ending(s, req, f) && RotatingIn(s, q, f)
    ensures LiveIn(Run(Step(s, EndFamily(req)), [e]), t, f)
  {
    t := Fresh(Tokens(s.issued));
    e := Insert(q, t, 0, true);
    var s' := Step(s, EndFamily(req));
    assert s'.requests[q] == s.requests[q];
    forall i | 0 <= i < |s.issued| ensures s.issued[i].token != t {
      assert s.issued[i].token in Tokens(s.issued);
    }
    assert [e][..0] == [];
    assert Run(s', [e][..0]) == s';
    assert Run(s', [e]) == Step(s', e);
  }

  ghost function Tokens(issued: seq<Issue>): set<TokenId> {
    set i | 0 <= i < |issued| :: issued[i].token
  }

  // ---- all sessions of a user ------------------------------------------------------------------------

  predicate LiveOf(s: State, t: TokenId, u: UserId, families: set<FamilyId>) {
    Live(s.rows, t) && s.rows[t].user == u && s.rows[t].family in families
  }

  /** A refresh of the user's, or a sign-in, is between its revoke and its insert. */
  predicate RotatingOf(s: State, q: RequestId, u: UserId, families: set<FamilyId>) {
    q in s.requests && s.requests[q].Rotating? && s.requests[q].user == u && s.requests[q].family in families
  }

  function RotationsOf(s: State, u: UserId, families: set<FamilyId>): set<RequestId> {
    set q | q in s.requests && RotatingOf(s, q, u, families)
  }

  /** A request that has read a row knows whose it is. */
  predicate FoundsOwn(s: State) {
    forall q | q in s.requests && s.requests[q].Found? && s.requests[q].token in s.rows ::
      s.rows[s.requests[q].token].user == s.requests[q].user && s.rows[s.requests[q].token].family == s.requests[q].family
  }

  lemma InsertKeepsFounds(s: State, e: Event)
    requires Recorded(s) && FoundsOwn(s) && e.Insert?
    ensures FoundsOwn(Step(s, e))
  {
    forall q | q in s.requests && s.requests[q].Found? ensures IsIssued(s.issued, s.requests[q].token) {
      assert IssuedIn(s.issued, s.requests[q].token, s.requests[q].family);
    }
  }

  lemma StepKeepsFounds(s: State, e: Event)
    requires Recorded(s) && FoundsOwn(s)
    ensures FoundsOwn(Step(s, e))
  {
    if e.Insert? { InsertKeepsFounds(s, e); }
  }

  lemma {:induction false} RunKeepsFounds(s: State, more: seq<Event>)
    requires Inv(s) && FoundsOwn(s)
    ensures Inv(Run(s, more)) && FoundsOwn(Run(s, more))
  {
    if more != [] {
      RunKeepsFounds(s, more[..|more| - 1]);
      StepKeepsInv(Run(s, more[..|more| - 1]), more[|more| - 1]);
      StepKeepsFounds(Run(s, more[..|more| - 1]), more[|more| - 1]);
    }
  }

  ghost predicate DeadFor(s: State, u: UserId, families: set<FamilyId>) {
    && families <= s.families
    && (forall t: TokenId :: !LiveOf(s, t, u, families))
    && (forall q: RequestId :: !RotatingOf(s, q, u, families))
  }

  lemma StepKeepsDeadFor(s: State, e: Event, u: UserId, families: set<FamilyId>)
    requires FoundsOwn(s) && DeadFor(s, u, families)
    ensures DeadFor(Step(s, e), u, families)
  {
    var s' := Step(s, e);
    forall t: TokenId ensures !LiveOf(s', t, u, families) {
      assert !LiveOf(s, t, u, families);
      assert e.Insert? ==> !RotatingOf(s, e.req, u, families);
    }
    forall q: RequestId ensures !RotatingOf(s', q, u, families) {
      assert !RotatingOf(s, q, u, families);
      assert e.Revoke? && q in s.requests && s.requests[q].Found? ==> !LiveOf(s, s.requests[q].token, u, families);
    }
  }

  lemma {:induction false} DeadForGood(s: State, more: seq<Event>, u: UserId, families: set<FamilyId>)
    requires Inv(s) && FoundsOwn(s) && DeadFor(s, u, families)
    ensures DeadFor(Run(s, more), u, families)
  {
    if more != [] {
      DeadForGood(s, more[..|more| - 1], u, families);
      RunKeepsFounds(s, more[..|more| - 1]);
      StepKeepsDeadFor(Run(s, more[..|more| - 1]), more[|more| - 1], u, families);
    }
  }

  /** No continuation ever has a live token of the user's in one of these families again. */
  ghost predicate OverForUser(s: State, u: UserId, families: set<FamilyId>) {
    forall more: seq<Event>, t: TokenId :: !LiveOf(Run(s, more), t, u, families)
  }

  /** `e` ends the user's sessions, but the one of `keep`. */
  predicate EndsSessions(e: Event, u: UserId, keep: Option<FamilyId>) {
    (e == EndUser(u) && keep == None) || e == EndUserExcept(u, keep)
  }

  function AllBut(families: set<FamilyId>, keep: Option<FamilyId>): set<FamilyId> {
    if keep.Some? then families - {keep.value} else families
  }

  lemma EndUserKills(s: State, e: Event, u: UserId, keep: Option<FamilyId>)
    requires EndsSessions(e, u, keep) && RotationsOf(s, u, AllBut(s.families, keep)) == {}
    ensures DeadFor(Step(s, e), u, AllBut(s.families, keep))
  {
    var families := AllBut(s.families, keep);
    forall q: RequestId ensures !RotatingOf(Step(s, e), q, u, families) {
      assert q in RotationsOf(s, u, families) <==> RotatingOf(s, q, u, families);
    }
  }

  lemma UserOutlives(s: State, e: Event, u: UserId, keep: Option<FamilyId>, q: RequestId) returns (next: Event, t: TokenId)
    requires EndsSessions(e, u, keep) && RotatingOf(s, q, u, AllBut(s.families, keep))
    ensures LiveOf(Run(Step(s, e), [next]), t, u, AllBut(s.families, keep))
  {
    t := Fresh(Tokens(s.issued));
    next := Insert(q, t, 0, true);
    forall i | 0 <= i < |s.issued| ensures s.issued[i].token != t {
      assert s.issued[i].token in Tokens(s.issued);
    }
    assert [next][..0] == [];
    assert Run(Step(s, e), [next]) == Step(Step(s, e), next);
  }

  /** Exactly when ending all sessions of a user, or all but one, ends those there are for good: if and
   *  only if no refresh or sign-in of the user's in them was about to insert its token. */
  lemma EndUserIsFinal(events: seq<Event>, e: Event, u: UserId, keep: Option<FamilyId>)
    requires EndsSessions(e, u, keep)
    ensures var s := Run(Empty, events);
            var families := AllBut(s.families, keep);
            RotationsOf(s, u, families) == {} <==> OverForUser(Step(s, e), u, families)
  {
    var s := Run(Empty, events);
    RunKeepsFounds(Empty, events);
    EndUserDecides(s, e, u, keep);
  }

  lemma EndUserDecides(s: State, e: Event, u: UserId, keep: Option<FamilyId>)
    requires Inv(s) && FoundsOwn(s) && EndsSessions(e, u, keep)
    ensures var families := AllBut(s.families, keep);
            RotationsOf(s, u, families) == {} <==> OverForUser(Step(s, e), u, families)
  {
    var families := AllBut(s.families, keep);
    if RotationsOf(s, u, families) == {} {
      EndUserKills(s, e, u, keep);
      StepKeepsInv(s, e);
      StepKeepsFounds(s, e);
      forall more: seq<Event>, t: TokenId ensures !LiveOf(Run(Step(s, e), more), t, u, families) {
        DeadForGood(Step(s, e), more, u, families);
      }
    } else {
      var q :| q in RotationsOf(s, u, families);
      var next, t := UserOutlives(s, e, u, keep, q);
    }
  }

  /** Two requests present the same token; the slower one finds it dead and ends the family while the
   *  faster one is still between its revoke and its insert: the session survives. */
  lemma ReuseAlarmCanMissARotation()
    ensures LiveIn(Run(Empty, [SignIn(0, 7, 1), Insert(0, 10, 100, true), Find(1, 10, 5), Find(2, 10, 5)]
                              + [Revoke(1), Revoke(2), EndFamily(2), Insert(1, 11, 100, true)]), 11, 1)
  {
    var first := [SignIn(0, 7, 1), Insert(0, 10, 100, true), Find(1, 10, 5), Find(2, 10, 5)];
    var second := [Revoke(1), Revoke(2), EndFamily(2), Insert(1, 11, 100, true)];
    RunFour(Empty, first[0], first[1], first[2], first[3]);
    RunFour(Presented(), second[0], second[1], second[2], second[3]);
    RunJoins(Empty, first, second);
    BothPresent();
    AlarmComesEarly();
  }

  /** One token, read by two requests. */
  function Presented(): State {
    State(map[10 := Row(7, 1, 100, false)], map[1 := Found(10, 7, 1), 2 := Found(10, 7, 1)], {1}, [Issue(10, 1, None)])
  }

  lemma BothPresent()
    ensures Step(Step(Step(Step(Empty, SignIn(0, 7, 1)), Insert(0, 10, 100, true)), Find(1, 10, 5)), Find(2, 10, 5)) == Presented()
  {
    var s2 := Step(Step(Empty, SignIn(0, 7, 1)), Insert(0, 10, 100, true));
    assert s2 == State(map[10 := Row(7, 1, 100, false)], map[], {1}, [Issue(10, 1, None)]);
  }

  lemma AlarmComesEarly()
    ensures LiveIn(Step(Step(Step(Step(Presented(), Revoke(1)), Revoke(2)), EndFamily(2)), Insert(1, 11, 100, true)), 11, 1)
  {
    var s5 := Step(Presented(), Revoke(1));
    assert s5.requests[1] == Rotating(7, 1, Some(10)) && !Live(s5.rows, 10);
    var s7 := Step(Step(s5, Revoke(2)), EndFamily(2));
    assert s7.requests[1] == Rotating(7, 1, Some(10)) && s7.issued == [Issue(10, 1, None)];
  }

  lemma RunOne(s: State, events: seq<Event>, e: Event)
    ensures Run(s, events + [e]) == Step(Run(s, events), e)
  {
    assert (events + [e])[..|events|] == events;
  }

  lemma RunFour(s: State, a: Event, b: Event, c: Event, d: Event)
    ensures Run(s, [a, b, c, d]) == Step(Step(Step(Step(s, a), b), c), d)
  {
    RunOne(s, [], a);
    RunOne(s, [] + [a], b);
    RunOne(s, [] + [a] + [b], c);
    RunOne(s, [] + [a] + [b] + [c], d);
    assert [a, b, c, d] == [] + [a] + [b] + [c] + [d];
  }

  lemma {:induction false} RunJoins(s: State, a: seq<Event>, b: seq<Event>)
    ensures Run(s, a + b) == Run(Run(s, a), b)
  {
    if b == [] {
      assert a + b == a;
    } else {
      RunJoins(s, a, b[..|b| - 1]);
      assert (a + b)[..|a + b| - 1] == a + b[..|b| - 1];
    }
  }

  // ---- the service itself ------------------------------------------------------------------------

  /** The table and the requests under way. Each method is one statement or one synchronous stretch
   *  of `refresh`, `logout`, `login` or an account-wide revoke. */
  class AuthServer {
    var rows: map<TokenId, Row>
    var requests: map<RequestId, Request>
    var families: set<FamilyId>
    ghost var issued: seq<Issue>

    ghost function View(): State
      reads this
    {
      State(rows, requests, families, issued)
    }

    constructor ()
      ensures View() == Empty
    {
      rows, requests, families, issued := map[], map[], {}, [];
    }

    /** `issueSession` of a sign-in, up to its insert. */
    method SignIn(req: RequestId, user: UserId, family: FamilyId)
      requires req !in requests && family !in families
      modifies this
      ensures View() == Step(old(View()), Event.SignIn(req, user, family))
      ensures requests[req] == Rotating(user, family, None) && rows == old(rows)
      ensures requests == old(requests)[req := Rotating(user, family, None)] && families == old(families) + {family}
    {
      requests := requests[req := Rotating(user, family, None)];
      families := families + {family};
    }

    /** `findRefreshTokenByHash` and the expiry check of `refresh`; false is a 401. */
    method FindRefreshToken(req: RequestId, token: TokenId, now: int) returns (found: bool)
      requires req !in requests
      modifies this
      ensures found <==> token in rows && now < rows[token].expiresAt
      ensures View() == Step(old(View()), Find(req, token, now))
      ensures !found ==> View() == old(View())
      ensures found ==> requests == old(requests)[req := Found(token, rows[token].user, rows[token].family)] && rows == old(rows)
    {
      if token !in rows { return false; }
      var row := rows[token];
      if row.expiresAt <= now { return false; }
      requests := requests[req := Found(token, row.user, row.family)];
      return true;
    }

    /** `revokeRefreshToken`: true for the one request that found the token live. */
    method RevokeRefreshToken(req: RequestId) returns (rotated: bool)
      requires req in requests && requests[req].Found?
      modifies this
      ensures rotated <==> Live(old(rows), old(requests)[req].token)
      ensures !Live(rows, old(requests)[req].token)
      ensures View() == Step(old(View()), Revoke(req))
      ensures !rotated ==> rows == old(rows) && requests[req] == EndingFamily(old(requests)[req].family)
      ensures var r := old(requests)[req];
              rotated ==> rows == old(rows)[r.token := old(rows)[r.token].(revoked := true)]
                          && requests == old(requests)[req := Rotating(r.user, r.family, Some(r.token))]
      ensures !rotated ==> requests == old(requests)[req := EndingFamily(old(requests)[req].family)]
    {
      var r := requests[req];
      rotated := r.token in rows && !rows[r.token].revoked;
      if rotated {
        rows := rows[r.token := rows[r.token].(revoked := true)];
        requests := requests[req := Rotating(r.user, r.family, Some(r.token))];
      } else {
        requests := requests[req := EndingFamily(r.family)];
      }
    }

    /** The rest of `issueSession`: a missing or restricted user gets nothing. */
    method IssueSession(req: RequestId, token: TokenId, expiresAt: int, allowed: bool)
      requires req in requests && requests[req].Rotating?
      requires !IsIssued(issued, token)
      modifies this
      ensures View() == Step(old(View()), Insert(req, token, expiresAt, allowed))
      ensures allowed ==> LiveIn(View(), token, old(requests)[req].family) && rows - {token} == old(rows) - {token}
      ensures !allowed ==> rows == old(rows)
      ensures allowed ==> rows[token] == Row(old(requests)[req].user, old(requests)[req].family, expiresAt, false)
      ensures requests == old(requests) - {req} && families == old(families)
    {
      var r := requests[req];
      requests := requests - {req};
      if allowed {
        rows := rows[token := Row(r.user, r.family, expiresAt, false)];
        issued := issued + [Issue(token, r.family, r.parent)];
      }
    }

    /** `logout` up to its revoke; an unknown token ends nothing. */
    method FindForLogout(req: RequestId, token: TokenId)
      requires req !in requests
      modifies this
      ensures View() == Step(old(View()), Event.FindForLogout(req, token))
      ensures if token in rows then requests[req] == EndingFamily(rows[token].family) && rows == old(rows)
              else View() == old(View())
      ensures requests - {req} == old(requests)
    {
      if token in rows {
        requests := requests[req := EndingFamily(rows[token].family)];
      }
    }

    method RevokeFamily(req: RequestId)
      requires req in requests && requests[req].EndingFamily?
      modifies this
      ensures View() == Step(old(View()), EndFamily(req))
      ensures LiveTokens(View(), old(requests)[req].family) == {} && rows.Keys == old(rows.Keys)
      ensures forall t | t in rows && rows[t].family != old(requests)[req].family :: rows[t] == old(rows)[t]
      ensures requests == old(requests) - {req}
      ensures forall t | t in rows :: rows[t] == if rows[t].family == old(requests)[req].family then old(rows)[t].(revoked := true) else old(rows)[t]
    {
      var f := requests[req].family;
      rows := map t | t in rows :: if rows[t].family == f then rows[t].(revoked := true) else rows[t];
      requests := requests - {req};
    }

    method RevokeAllForUser(user: UserId)
      modifies this
      ensures View() == Step(old(View()), EndUser(user))
      ensures rows.Keys == old(rows.Keys) && forall t | Live(rows, t) :: rows[t].user != user
      ensures forall t | t in rows && rows[t].user != user :: rows[t] == old(rows)[t]
      ensures requests == old(requests) && forall t | t in rows :: rows[t] == if rows[t].user == user then old(rows)[t].(revoked := true) else old(rows)[t]
    {
      rows := map t | t in rows :: if rows[t].user == user then rows[t].(revoked := true) else rows[t];
    }

    method RevokeAllForUserExcept(user: UserId, keep: Option<FamilyId>)
      modifies this
      ensures View() == Step(old(View()), EndUserExcept(user, keep))
      ensures rows.Keys == old(rows.Keys) && forall t | Live(rows, t) && rows[t].user == user :: keep == Some(rows[t].family)
      ensures forall t | t in rows && (rows[t].user != user || keep == Some(rows[t].family)) :: rows[t] == old(rows)[t]
      ensures requests == old(requests)
      ensures forall t | t in rows :: rows[t] ==
                if rows[t].user == user && keep != Some(rows[t].family) then old(rows)[t].(revoked := true) else old(rows)[t]
    {
      rows := map t | t in rows ::
        if rows[t].user == user && (keep == None || rows[t].family != keep.value)
        then rows[t].(revoked := true) else rows[t];
    }
  }
}

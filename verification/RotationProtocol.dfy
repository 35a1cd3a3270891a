/**
 * The phone and the server together (apps/mobile/src/auth/session.ts:188-249 with
 * apps/api/src/auth/auth.service.ts:191-215): the phone's single flight keeps the server's reuse
 * alarm silent.
 *
 * One generation of the session, and no answer is lost once a request has reached the server.
 * Requests may still be lost on the way there, callers may ask for a refresh at any moment, and the
 * server may do anything for other users and other families in between.
 */
module RotationProtocol {
  import opened Common
  import S = RefreshTokens
  import C = MobileSession

  /** Where the request of the phone's refresh `op` is. */
  datatype Wire = Outbound | AtServer | Answered(token: S.TokenId)

  /** The server knows the phone's request by the same id as the phone. */
  datatype World = World(phone: C.State, server: S.State, wires: map<C.OpId, Wire>)

  /** The session the phone is in: its generation there, its family and its user here. */
  datatype Login = Login(generation: nat, family: S.FamilyId, user: S.UserId)

  datatype Event =
    | Ask(op: C.OpId)                                          // someone needs an access token
    | Read(op: C.OpId)                                         // the keystore read returns, the request leaves
    | LostOnTheWay(op: C.OpId)                                 // offline
    | Arrive(op: C.OpId, now: int)                             // the server reads the row
    | Rotate(op: C.OpId)                                       // ... revokes it
    | Replace(op: C.OpId, token: S.TokenId, expiresAt: int)    // ... and inserts its successor
    | Answer(op: C.OpId, access: nat, user: nat)               // the phone gets it
    | Queue
    | Resume(op: C.OpId)
    | Finally(op: C.OpId)
    | Elsewhere(e: S.Event)                                    // any request of another family

  /** The server's step concerns neither this family nor this user's sessions as a whole. */
  predicate Unrelated(w: World, l: Login, e: S.Event) {
    match e
    case SignIn(req, _, _) => req !in w.phone.started
    case Find(req, token, _) => req !in w.phone.started && token in w.server.rows && w.server.rows[token].family != l.family
    case Revoke(req) => req !in w.phone.started
    case Insert(req, _, _, _) => req !in w.phone.started
    case FindForLogout(req, token) => req !in w.phone.started && token in w.server.rows && w.server.rows[token].family != l.family
    case EndFamily(req) => req !in w.phone.started
    case EndUser(user) => user != l.user
    case EndUserExcept(user, keep) => user != l.user || keep == Some(l.family)
    case DeleteUser(user) => user != l.user
  }

  predicate Requesting(w: World, op: C.OpId) {
    C.Waits(w.phone, op, C.Refresh) && w.phone.ops[op].wait.Requesting? && op in w.wires
  }

  /** The token is one the server still accepts. */
  predicate Unexpired(w: World, token: S.TokenId, now: int) {
    token in w.server.rows ==> now < w.server.rows[token].expiresAt
  }

  function Step(w: World, l: Login, e: Event): World {
    match e
    case Ask(op) =>
      if op in w.server.requests then w else w.(phone := C.Step(w.phone, C.CallRefresh(op)))
    case Read(op) =>
      var phone := C.Step(w.phone, C.ReadStored(op));
      if phone == w.phone then w
      else World(phone, w.server, w.wires[op := Outbound])
    case LostOnTheWay(op) =>
      if Requesting(w, op) && w.wires[op] == Outbound
      then World(C.Step(w.phone, C.RefreshFailed(op)), w.server, w.wires - {op}) else w
    case Arrive(op, now) =>
      if Requesting(w, op) && w.wires[op] == Outbound && Unexpired(w, w.phone.ops[op].wait.token, now)
      then w.(server := S.Step(w.server, S.Find(op, w.phone.ops[op].wait.token, now)), wires := w.wires[op := AtServer])
      else w
    case Rotate(op) =>
      if Requesting(w, op) && w.wires[op] == AtServer then w.(server := S.Step(w.server, S.Revoke(op))) else w
    case Replace(op, token, expiresAt) =>
      if Requesting(w, op) && w.wires[op] == AtServer && !S.IsIssued(w.server.issued, token)
         && op in w.server.requests && w.server.requests[op].Rotating?
      then w.(server := S.Step(w.server, S.Insert(op, token, expiresAt, true)), wires := w.wires[op := Answered(token)])
      else w
    case Answer(op, access, user) =>
      if Requesting(w, op) && w.wires[op].Answered?
      then World(C.Step(w.phone, C.RefreshOk(op, C.Session(access, w.wires[op].token, user))), w.server, w.wires - {op})
      else w
    case Queue => w.(phone := C.Step(w.phone, C.RunQueue))
    case Resume(op) => w.(phone := C.Step(w.phone, C.Resume(op)))
    case Finally(op) => w.(phone := C.Step(w.phone, C.Finally(op)))
    case Elsewhere(se) => if Unrelated(w, l, se) then w.(server := S.Step(w.server, se)) else w
  }

  function Run(w: World, l: Login, events: seq<Event>): World {
    if events == [] then w else Step(Run(w, l, events[..|events| - 1]), l, events[|events| - 1])
  }

  // ---- the invariant -------------------------------------------------------------------------------

  /** The token is the family's live one. */
  predicate LiveHere(w: World, l: Login, token: S.TokenId) {
    S.LiveIn(w.server, token, l.family) && w.server.rows[token].user == l.user
  }

  /** No request of the family is at the server, except possibly `op`'s. */
  ghost predicate OnlyRequest(w: World, l: Login, op: Option<C.OpId>) {
    forall q | q in w.server.requests :: w.server.requests[q].family == l.family ==> Some(q) == op
  }

  /** No refresh, or none holding a request: the keystore has the live token. */
  ghost predicate AtRest(w: World, l: Login) {
    w.phone.queue == [] && w.phone.keystore.Some? && LiveHere(w, l, w.phone.keystore.value) && OnlyRequest(w, l, None)
  }

  /** The request of `op` is out with `token`, which the keystore still has. */
  ghost predicate InRequest(w: World, l: Login, op: C.OpId, token: S.TokenId) {
    && w.phone.queue == [] && w.phone.keystore == Some(token) && op in w.wires
    && match w.wires[op]
       case Outbound => LiveHere(w, l, token) && OnlyRequest(w, l, None) && op !in w.server.requests
       case AtServer =>
         && OnlyRequest(w, l, Some(op))
         && op in w.server.requests
         && (|| (w.server.requests[op] == S.Found(token, l.user, l.family) && LiveHere(w, l, token))
             || w.server.requests[op] == S.Rotating(l.user, l.family, Some(token)))
       case Answered(next) => LiveHere(w, l, next) && OnlyRequest(w, l, None)
  }

  ghost predicate InFlight(w: World, l: Login, op: C.OpId)
    requires op in w.phone.ops
  {
    var o := w.phone.ops[op];
    && o.kind == C.Refresh && o.captured == l.generation
    && w.phone.inFlight == Some(C.Flight(l.generation, op))
    && match o.wait
       case Reading => AtRest(w, l) && op !in w.server.requests
       case Requesting(token) => InRequest(w, l, op, token)
       case Persisting(session) =>
         && LiveHere(w, l, session.refresh) && OnlyRequest(w, l, None)
         && exists begun :: w.phone.queue == [C.Write(op, l.generation, session.refresh, begun)]
       case Persisted(session, written) => written && w.phone.keystore == Some(session.refresh) && AtRest(w, l)
       case Settling => AtRest(w, l)
       case _ => false
  }

  /** The one unfinished refresh. */
  ghost predicate Sole(w: World, l: Login, op: C.OpId) {
    w.phone.ops.Keys == {op} && op in w.phone.ops && op in w.phone.started && InFlight(w, l, op)
  }

  ghost predicate Phase(w: World, l: Login) {
    && w.phone.generation == l.generation
    && (if w.phone.ops == map[] then w.phone.inFlight == None && AtRest(w, l)
        else w.phone.inFlight.Some? && Sole(w, l, w.phone.inFlight.value.op))
  }

  ghost predicate Inv(w: World, l: Login) {
    S.Inv(w.server) && Phase(w, l)
  }

  // ---- other requests at the server do not disturb it ----------------------------------------------

  /** The phone's request, if one is at the server, is the family's only one. */
  ghost predicate Undisturbed(w: World, l: Login, op: Option<C.OpId>) {
    && l.family in w.server.families
    && OnlyRequest(w, l, op)
    && (op.Some? ==> op.value in w.phone.started)
  }

  ghost predicate FoundsMatch(s: S.State) {
    forall q | q in s.requests && s.requests[q].Found? && s.requests[q].token in s.rows ::
      s.rows[s.requests[q].token].family == s.requests[q].family
  }

  lemma InvMatchesFounds(s: S.State)
    requires S.Inv(s)
    ensures FoundsMatch(s)
  {
    forall q | q in s.requests && s.requests[q].Found? && s.requests[q].token in s.rows
      ensures s.rows[s.requests[q].token].family == s.requests[q].family
    {
      var r := s.requests[q];
      S.IssuedOnce(s.issued, r.token, r.family, s.rows[r.token].family);
    }
  }

  lemma ElsewhereKeepsLive(w: World, l: Login, op: Option<C.OpId>, e: S.Event, token: S.TokenId)
    requires Undisturbed(w, l, op) && Unrelated(w, l, e) && LiveHere(w, l, token)
    requires S.IsIssued(w.server.issued, token) && FoundsMatch(w.server)
    ensures LiveHere(w.(server := S.Step(w.server, e)), l, token)
  {
    match e
    case EndFamily(req) =>
    case Revoke(req) =>
    case Insert(req, t, x, allowed) =>
    case _ =>
  }

  lemma ElsewhereKeepsRequests(w: World, l: Login, op: Option<C.OpId>, e: S.Event)
    requires Undisturbed(w, l, op) && Unrelated(w, l, e)
    ensures OnlyRequest(w.(server := S.Step(w.server, e)), l, op)
    ensures op.Some? && op.value in w.server.requests ==>
              op.value in S.Step(w.server, e).requests && S.Step(w.server, e).requests[op.value] == w.server.requests[op.value]
    ensures op.Some? && op.value !in w.server.requests ==> op.value !in S.Step(w.server, e).requests
  {
    match e
    case SignIn(req, _, family) =>
    case Find(req, t, now) =>
    case Revoke(req) =>
    case Insert(req, t, x, allowed) =>
    case FindForLogout(req, t) =>
    case EndFamily(req) =>
    case _ =>
  }

  lemma ElsewhereKeepsPhase(w: World, l: Login, e: S.Event)
    requires S.Recorded(w.server) && FoundsMatch(w.server) && Phase(w, l) && Unrelated(w, l, e)
    ensures Phase(w.(server := S.Step(w.server, e)), l)
  {
    var w' := w.(server := S.Step(w.server, e));
    forall q, t | Undisturbed(w, l, q) && LiveHere(w, l, t) ensures LiveHere(w', l, t) {
      assert S.IssuedIn(w.server.issued, t, l.family);
      ElsewhereKeepsLive(w, l, q, e, t);
    }
    forall q | Undisturbed(w, l, q)
      ensures OnlyRequest(w', l, q)
      ensures q.Some? && q.value in w.server.requests ==>
                q.value in w'.server.requests && w'.server.requests[q.value] == w.server.requests[q.value]
      ensures q.Some? && q.value !in w.server.requests ==> q.value !in w'.server.requests
    {
      ElsewhereKeepsRequests(w, l, q, e);
    }
    if w.phone.ops == map[] {
      assert Undisturbed(w, l, None);
    } else {
      var op := w.phone.inFlight.value.op;
      assert OnlyRequest(w, l, None) ==> Undisturbed(w, l, None);
      assert Undisturbed(w, l, Some(op));
      assert InFlight(w', l, op);
    }
  }

  // ---- the protocol's own steps --------------------------------------------------------------------

  lemma AskKeepsPhase(w: World, l: Login, op: C.OpId)
    requires Phase(w, l)
    ensures Phase(Step(w, l, Ask(op)), l)
  {
    var w' := Step(w, l, Ask(op));
    if w' != w {
      assert w.phone.ops == map[];
      assert w'.phone.ops.Keys == {op};
    }
  }

  lemma ReadKeepsPhase(w: World, l: Login, op: C.OpId)
    requires Phase(w, l) && op in w.phone.ops && w.phone.ops[op].wait.Reading?
    ensures Phase(Step(w, l, Read(op)), l)
  {
    var w' := Step(w, l, Read(op));
    assert w'.phone == C.SetWait(w.phone, op, C.Requesting(w.phone.keystore.value));
    assert w'.phone.ops.Keys == {op};
  }

  lemma LostKeepsPhase(w: World, l: Login, op: C.OpId)
    requires Phase(w, l) && Requesting(w, op) && w.wires[op] == Outbound
    ensures Phase(Step(w, l, LostOnTheWay(op)), l)
  {
    var w' := Step(w, l, LostOnTheWay(op));
    assert w'.phone == C.SetWait(w.phone, op, C.Settling);
    assert w'.phone.ops.Keys == {op};
    assert AtRest(w', l);
  }

  lemma ArriveKeepsPhase(w: World, l: Login, op: C.OpId, now: int)
    requires Phase(w, l) && Requesting(w, op) && w.wires[op] == Outbound
    requires Unexpired(w, w.phone.ops[op].wait.token, now)
    ensures Phase(Step(w, l, Arrive(op, now)), l)
  {
    var w' := Step(w, l, Arrive(op, now));
    var token := w.phone.ops[op].wait.token;
    assert w'.server.requests == w.server.requests[op := S.Found(token, l.user, l.family)];
    assert w'.server.rows == w.server.rows && w'.phone == w.phone;
    assert InRequest(w', l, op, token);
  }

  /** The revoke finds the token live: the reuse branch is not taken. */
  lemma RotateKeepsPhase(w: World, l: Login, op: C.OpId)
    requires Phase(w, l) && Requesting(w, op) && w.wires[op] == AtServer
    ensures Phase(Step(w, l, Rotate(op)), l)
  {
    var w' := Step(w, l, Rotate(op));
    var token := w.phone.ops[op].wait.token;
    if w.server.requests[op].Found? {
      assert w'.server.requests == w.server.requests[op := S.Rotating(l.user, l.family, Some(token))];
    }
    assert InRequest(w', l, op, token);
  }

  lemma ReplaceKeepsPhase(w: World, l: Login, op: C.OpId, token: S.TokenId, expiresAt: int)
    requires Phase(w, l) && Requesting(w, op) && w.wires[op] == AtServer
    requires !S.IsIssued(w.server.issued, token) && op in w.server.requests && w.server.requests[op].Rotating?
    ensures Phase(Step(w, l, Replace(op, token, expiresAt)), l)
  {
    var w' := Step(w, l, Replace(op, token, expiresAt));
    assert w'.server.rows == w.server.rows[token := S.Row(l.user, l.family, expiresAt, false)];
    assert w'.server.requests == w.server.requests - {op};
    assert InRequest(w', l, op, w.phone.ops[op].wait.token);
  }

  lemma AnswerKeepsPhase(w: World, l: Login, op: C.OpId, access: nat, user: nat)
    requires Phase(w, l) && Requesting(w, op) && w.wires[op].Answered?
    ensures Phase(Step(w, l, Answer(op, access, user)), l)
  {
    var w' := Step(w, l, Answer(op, access, user));
    var session := C.Session(access, w.wires[op].token, user);
    assert w'.phone.ops == w.phone.ops[op := C.Op(C.Refresh, l.generation, C.Persisting(session))];
    assert w'.phone.ops.Keys == {op};
    assert w'.phone.queue == [C.Write(op, l.generation, session.refresh, false)];
  }

  lemma QueueKeepsPhase(w: World, l: Login)
    requires Phase(w, l) && w.phone.queue != []
    ensures Phase(Step(w, l, Queue), l)
  {
    var w' := Step(w, l, Queue);
    var op := w.phone.inFlight.value.op;
    assert w.phone.ops[op].wait.Persisting?;
    assert w.phone.queue[1..] == [];
    assert w'.phone.ops.Keys == {op};
    if w.phone.queue[0].started {
      assert AtRest(w', l);
    }
  }

  lemma ResumeKeepsPhase(w: World, l: Login, op: C.OpId)
    requires Phase(w, l) && op in w.phone.ops && w.phone.ops[op].wait.Persisted?
    ensures Phase(Step(w, l, Resume(op)), l)
  {
    var w' := Step(w, l, Resume(op));
    assert w'.phone.ops == w.phone.ops[op := w.phone.ops[op].(wait := C.Settling)];
    assert w'.phone.ops.Keys == {op};
    assert AtRest(w', l);
  }

  lemma FinallyKeepsPhase(w: World, l: Login, op: C.OpId)
    requires Phase(w, l) && op in w.phone.ops && w.phone.ops[op].wait.Settling?
    ensures Phase(Step(w, l, Finally(op)), l)
  {
    var w' := Step(w, l, Finally(op));
    assert w'.phone.ops == map[];
    assert AtRest(w', l);
  }

  /** What the server sees of a step, if anything. */
  function ServerEvent(w: World, e: Event): Option<S.Event> {
    match e
    case Arrive(op, now) => if Requesting(w, op) then Some(S.Find(op, w.phone.ops[op].wait.token, now)) else None
    case Rotate(op) => Some(S.Revoke(op))
    case Replace(op, token, expiresAt) => Some(S.Insert(op, token, expiresAt, true))
    case Elsewhere(se) => Some(se)
    case _ => None
  }

  lemma ServerSteps(w: World, l: Login, e: Event)
    ensures Step(w, l, e).server != w.server ==>
              ServerEvent(w, e).Some? && Step(w, l, e).server == S.Step(w.server, ServerEvent(w, e).value)
  {
  }

  lemma StepKeepsServer(w: World, l: Login, e: Event)
    requires S.Inv(w.server)
    ensures S.Inv(Step(w, l, e).server)
  {
    ServerSteps(w, l, e);
    if Step(w, l, e).server != w.server {
      S.StepKeepsInv(w.server, ServerEvent(w, e).value);
    }
  }

  lemma StepKeepsPhase(w: World, l: Login, e: Event)
    requires Phase(w, l) && S.Recorded(w.server) && FoundsMatch(w.server)
    ensures Phase(Step(w, l, e), l)
  {
    if Step(w, l, e) != w {
      match e
      case Ask(op) => AskKeepsPhase(w, l, op);
      case Read(op) => ReadKeepsPhase(w, l, op);
      case LostOnTheWay(op) => LostKeepsPhase(w, l, op);
      case Arrive(op, now) => ArriveKeepsPhase(w, l, op, now);
      case Rotate(op) => RotateKeepsPhase(w, l, op);
      case Replace(op, token, expiresAt) => ReplaceKeepsPhase(w, l, op, token, expiresAt);
      case Answer(op, access, user) => AnswerKeepsPhase(w, l, op, access, user);
      case Queue => QueueKeepsPhase(w, l);
      case Resume(op) => ResumeKeepsPhase(w, l, op);
      case Finally(op) => FinallyKeepsPhase(w, l, op);
      case Elsewhere(se) => ElsewhereKeepsPhase(w, l, se);
    }
  }

  lemma {:induction false} RunKeepsInv(w: World, l: Login, events: seq<Event>)
    requires Inv(w, l)
    ensures Inv(Run(w, l, events), l)
  {
    if events != [] {
      var before := Run(w, l, events[..|events| - 1]);
      RunKeepsInv(w, l, events[..|events| - 1]);
      InvMatchesFounds(before.server);
      StepKeepsPhase(before, l, events[|events| - 1]);
      StepKeepsServer(before, l, events[|events| - 1]);
    }
  }

  // ---- what it says --------------------------------------------------------------------------------

  /** A phone at rest in a session: its keystore has the family's live token, and nothing is under way. */
  ghost predicate Settled(w: World, l: Login) {
    && S.Inv(w.server) && w.phone.generation == l.generation
    && w.phone.ops == map[] && w.phone.inFlight == None && AtRest(w, l)
  }

  /** The token this event's request puts in front of the server is dead: it would end the family. */
  predicate RaisesAlarm(w: World, e: Event) {
    && e.Rotate? && Requesting(w, e.op) && w.wires[e.op] == AtServer
    && e.op in w.server.requests && w.server.requests[e.op].Found?
    && !S.Live(w.server.rows, w.server.requests[e.op].token)
  }

  lemma PhaseIsQuiet(w: World, l: Login, e: Event)
    requires Phase(w, l)
    ensures |w.phone.ops| <= 1 && w.phone.generation == l.generation && !RaisesAlarm(w, e)
    ensures forall q | q in w.server.requests :: w.server.requests[q] != S.EndingFamily(l.family)
  {
    if w.phone.ops != map[] {
      assert |w.phone.ops| == |w.phone.ops.Keys|;
    }
    forall q | q in w.server.requests ensures w.server.requests[q] != S.EndingFamily(l.family) {
      assert OnlyRequest(w, l, None) || w.phone.ops != map[];
    }
  }

  /** However many callers ask, and however their requests fare on the way: at most one refresh is
   *  unfinished, the session is never replaced or ended, and no request of the phone finds its token
   *  dead, so the family is never ended. */
  lemma SingleFlightKeepsAlarmSilent(w: World, l: Login, events: seq<Event>, e: Event)
    requires Settled(w, l)
    ensures var v := Run(w, l, events);
            && |v.phone.ops| <= 1
            && v.phone.generation == l.generation
            && !RaisesAlarm(v, e)
            && (forall q | q in v.server.requests :: v.server.requests[q] != S.EndingFamily(l.family))
  {
    RunKeepsInv(w, l, events);
    PhaseIsQuiet(Run(w, l, events), l, e);
  }

  /** Every refresh the server looks at presents the family's one live token. */
  lemma PresentsTheLiveToken(w: World, l: Login, events: seq<Event>, op: C.OpId)
    requires Settled(w, l)
    requires var v := Run(w, l, events);
             Requesting(v, op) && v.wires[op] == AtServer && op in v.server.requests && v.server.requests[op].Found?
    ensures var v := Run(w, l, events);
            S.LiveTokens(v.server, l.family) == {v.phone.ops[op].wait.token}
  {
    RunKeepsInv(w, l, events);
    var v := Run(w, l, events);
    assert LiveHere(v, l, v.phone.ops[op].wait.token);
    OnlyLiveToken(v.server, l.family, v.phone.ops[op].wait.token);
  }

  lemma OnlyLiveToken(s: S.State, f: S.FamilyId, token: S.TokenId)
    requires S.LiveIsNewest(s) && S.LiveIn(s, token, f)
    ensures S.LiveTokens(s, f) == {token}
  {
    forall t | t in S.LiveTokens(s, f) ensures t == token {
      assert S.Newest(s.issued, f) == Some(t);
    }
    assert token in S.LiveTokens(s, f);
  }

  /** The phone gives up on a request the server has already answered. */
  function LoseAnswer(w: World, op: C.OpId): World {
    World(C.Step(w.phone, C.RefreshFailed(op)), w.server, w.wires - {op})
  }

  /** That no answer is lost is needed: after a lost answer the very next refresh presents a dead token. */
  lemma LostAnswerRaisesAlarm(w: World, l: Login, op: C.OpId, next: C.OpId, now: int)
    requires Phase(w, l) && Requesting(w, op) && w.wires[op].Answered?
    requires var token := w.phone.ops[op].wait.token;
             token in w.server.rows && w.server.rows[token].revoked && now < w.server.rows[token].expiresAt
    requires next !in w.phone.started && next !in w.server.requests
    ensures RaisesAlarm(Run(LoseAnswer(w, op), l, [Finally(op), Ask(next), Read(next), Arrive(next, now)]), Rotate(next))
  {
    var token := w.phone.ops[op].wait.token;
    var w0 := LoseAnswer(w, op);
    var w1 := Step(w0, l, Finally(op));
    var w2 := Step(w1, l, Ask(next));
    var w3 := Step(w2, l, Read(next));
    GivenUp(w, l, op);
    AsksAgain(w1, l, next, token);
    PresentsDead(w3, l, next, now, token);
    RunFour(w0, l, Finally(op), Ask(next), Read(next), Arrive(next, now));
  }

  /** The answer to `op` is out, and the token it was asked with, not expired at `now`, is dead. */
  predicate AnswerIsOut(w: World, op: C.OpId, now: int) {
    && Requesting(w, op) && w.wires[op].Answered?
    && var token := w.phone.ops[op].wait.token;
       token in w.server.rows && w.server.rows[token].revoked && now < w.server.rows[token].expiresAt
  }

  /** A phone at rest gets there by one refresh that the server answers. */
  lemma RefreshIsAnswered(w: World, l: Login, op: C.OpId, now: int, token: S.TokenId, expiresAt: int) returns (events: seq<Event>)
    requires Settled(w, l) && op !in w.phone.started && op !in w.server.requests
    requires now < w.server.rows[w.phone.keystore.value].expiresAt && !S.IsIssued(w.server.issued, token)
    ensures var v := Run(w, l, events);
            && Phase(v, l) && AnswerIsOut(v, op, now)
            && v.phone.started.Keys == w.phone.started.Keys + {op} && v.server.requests.Keys == w.server.requests.Keys
  {
    var held := w.phone.keystore.value;
    events := [Ask(op), Read(op), Arrive(op, now), Rotate(op)] + [Replace(op, token, expiresAt)];
    RunFour(w, l, Ask(op), Read(op), Arrive(op, now), Rotate(op));
    RunOne(w, l, [Ask(op), Read(op), Arrive(op, now), Rotate(op)], Replace(op, token, expiresAt));
    RunKeepsInv(w, l, events);
    AsksAgain(w, l, op, held);
    RequestLeaves(w, l, op, held);
    var w2 := Step(Step(w, l, Ask(op)), l, Read(op));
    RotatesAtServer(w2, l, op, held, now);
    var w4 := Step(Step(w2, l, Arrive(op, now)), l, Rotate(op));
    NewIsAnother(w.server, held, token);
    Replaced(w4, l, op, held, now, token, expiresAt);
  }

  lemma NewIsAnother(s: S.State, held: S.TokenId, token: S.TokenId)
    requires S.Recorded(s) && held in s.rows && !S.IsIssued(s.issued, token)
    ensures token != held
  {
    assert S.IssuedIn(s.issued, held, s.rows[held].family);
    assert S.IsIssued(s.issued, held);
  }

  lemma RequestLeaves(w: World, l: Login, op: C.OpId, held: C.Token)
    requires Settled(w, l) && w.phone.keystore == Some(held) && op !in w.phone.started && op !in w.server.requests
    ensures Step(Step(w, l, Ask(op)), l, Read(op)).phone.started.Keys == w.phone.started.Keys + {op}
  {
  }

  lemma RotatesAtServer(w2: World, l: Login, op: C.OpId, held: C.Token, now: int)
    requires op in w2.phone.ops && w2.phone.ops[op] == C.Op(C.Refresh, l.generation, C.Requesting(held))
    requires op in w2.wires && w2.wires[op] == Outbound && op !in w2.server.requests
    requires S.Live(w2.server.rows, held) && now < w2.server.rows[held].expiresAt
    ensures var w4 := Step(Step(w2, l, Arrive(op, now)), l, Rotate(op));
            && w4.phone == w2.phone && w4.wires == w2.wires[op := AtServer] && w4.server.issued == w2.server.issued
            && op in w4.server.requests && w4.server.requests[op].Rotating?
            && w4.server.requests.Keys == w2.server.requests.Keys + {op}
            && w4.server.rows.Keys == w2.server.rows.Keys
            && w4.server.rows[held] == w2.server.rows[held].(revoked := true)
  {
  }

  lemma Replaced(w4: World, l: Login, op: C.OpId, held: C.Token, now: int, token: S.TokenId, expiresAt: int)
    requires op in w4.phone.ops && w4.phone.ops[op] == C.Op(C.Refresh, l.generation, C.Requesting(held))
    requires op in w4.wires && w4.wires[op] == AtServer && op in w4.server.requests && w4.server.requests[op].Rotating?
    requires held in w4.server.rows && w4.server.rows[held].revoked && now < w4.server.rows[held].expiresAt
    requires !S.IsIssued(w4.server.issued, token) && token != held
    ensures var w5 := Step(w4, l, Replace(op, token, expiresAt));
            && AnswerIsOut(w5, op, now) && w5.phone == w4.phone && w5.server.requests.Keys == w4.server.requests.Keys - {op}
  {
  }

  /** From rest: one refresh whose answer is lost, and the one after it raises the alarm. */
  lemma LostAnswerFromRest(w: World, l: Login, op: C.OpId, next: C.OpId, now: int, token: S.TokenId, expiresAt: int)
    returns (events: seq<Event>)
    requires Settled(w, l) && op !in w.phone.started && op !in w.server.requests
    requires next !in w.phone.started && next !in w.server.requests && next != op
    requires now < w.server.rows[w.phone.keystore.value].expiresAt && !S.IsIssued(w.server.issued, token)
    ensures RaisesAlarm(Run(LoseAnswer(Run(w, l, events), op), l, [Finally(op), Ask(next), Read(next), Arrive(next, now)]), Rotate(next))
  {
    events := RefreshIsAnswered(w, l, op, now, token, expiresAt);
    LostAnswerRaisesAlarm(Run(w, l, events), l, op, next, now);
  }

  lemma RunFour(w: World, l: Login, a: Event, b: Event, c: Event, d: Event)
    ensures Run(w, l, [a, b, c, d]) == Step(Step(Step(Step(w, l, a), l, b), l, c), l, d)
  {
    RunOne(w, l, [], a);
    RunOne(w, l, [] + [a], b);
    RunOne(w, l, [] + [a] + [b], c);
    RunOne(w, l, [] + [a] + [b] + [c], d);
    assert [a, b, c, d] == [] + [a] + [b] + [c] + [d];
  }

  lemma RunOne(w: World, l: Login, events: seq<Event>, e: Event)
    ensures Run(w, l, events + [e]) == Step(Run(w, l, events), l, e)
  {
    assert (events + [e])[..|events|] == events;
  }

  /** The refresh that lost its answer is over; the old token is still in the keystore. */
  lemma GivenUp(w: World, l: Login, op: C.OpId)
    requires Phase(w, l) && Requesting(w, op) && w.wires[op].Answered?
    ensures var w1 := Step(LoseAnswer(w, op), l, Finally(op));
            && w1.phone.ops == map[] && w1.phone.inFlight == None
            && w1.phone.keystore == Some(w.phone.ops[op].wait.token)
            && w1.phone.generation == l.generation && w1.phone.started == w.phone.started
            && w1.server == w.server && op !in w1.wires && w1.wires == w.wires - {op}
  {
  }

  /** The next one reads that token. */
  lemma AsksAgain(w1: World, l: Login, next: C.OpId, token: C.Token)
    requires w1.phone.ops == map[] && w1.phone.inFlight == None && w1.phone.keystore == Some(token)
    requires w1.phone.generation == l.generation && next !in w1.phone.started && next !in w1.server.requests
    ensures var w3 := Step(Step(w1, l, Ask(next)), l, Read(next));
            && w3.phone.ops == map[next := C.Op(C.Refresh, l.generation, C.Requesting(token))]
            && w3.server == w1.server && w3.wires == w1.wires[next := Outbound]
  {
  }

  lemma PresentsDead(w3: World, l: Login, next: C.OpId, now: int, token: C.Token)
    requires next in w3.phone.ops && w3.phone.ops[next] == C.Op(C.Refresh, l.generation, C.Requesting(token))
    requires next in w3.wires && w3.wires[next] == Outbound && next !in w3.server.requests
    requires token in w3.server.rows && w3.server.rows[token].revoked && now < w3.server.rows[token].expiresAt
    ensures RaisesAlarm(Step(w3, l, Arrive(next, now)), Rotate(next))
  {
  }
}

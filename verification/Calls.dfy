/**
 * The life of a 1:1 call on the server (apps/api/src/db/calls.ts and
 * apps/api/src/calls/call-signaling.service.ts).
 *
 * Every change to a call row is one conditional UPDATE, and each is a step of its own: devices,
 * API nodes, the timeout sweep and closing sockets race between them. A handler that goes on after
 * an `await` leaves the rest of its work in `todo`. The rows an UPDATE returned as ended are in
 * `won` until their winner announces them.
 */
module Calls {
  import opened Common

  type CallId = nat
  type UserId = nat
  type ConvId = nat
  type OpId = nat

  /** A realtime socket: its id, and the user it authenticated as. */
  datatype Conn = Conn(id: nat, user: UserId)

  datatype Status = Ringing | Active | Ended

  datatype Reason = Missed | Cancelled | Declined | Busy | Completed | ConnectionLost | Unavailable

  datatype Action = Decline | Cancel | End

  /** One row of `calls`; times in milliseconds. */
  datatype Call = Call(
    conversation: ConvId,
    caller: UserId,
    callee: UserId,
    status: Status,
    endReason: Option<Reason>,
    callerConn: Conn,
    calleeConn: Option<Conn>,
    callerGone: Option<int>,
    calleeGone: Option<int>,
    silenced: bool,
    createdAt: int,
    answeredAt: Option<int>,
    endedAt: Option<int>)

  type Table = map<CallId, Call>

  /** What a handler still has to do. */
  datatype Todo =
    | EndBusy(call: CallId)
    | TellCallee(call: CallId)
    | TellAccepted(call: CallId)
    | TellLoser(call: CallId, conn: Conn)
    | HangUpIf(call: CallId, reason: Reason, from: Status)
    | MarkCaller(conn: Conn, at: int)
    | MarkCallee(conn: Conn, at: int)
    | ResumeAsCallee(call: CallId, conn: Conn)
    | TellResumed(call: CallId, conn: Conn, peer: Option<Conn>)
    | TellIfEnded(call: CallId, conn: Conn)

  datatype Channel = ToUser(user: UserId) | ToConn(conn: Conn)

  datatype News = Incoming | Accepted | HasEnded | Resumed

  datatype Publication = Publication(channel: Channel, news: News, call: CallId)

  /** How long a call may ring, and how long a participant may be gone. */
  datatype Limits = Limits(ring: nat, grace: nat)

  datatype State = State(
    rows: Table,
    todo: map<OpId, Todo>,
    closed: map<Conn, int>,
    won: multiset<CallId>,
    announced: seq<CallId>,
    published: seq<Publication>)

  const Empty := State(map[], map[], map[], multiset{}, [], [])

  datatype Event =
    | Invite(op: OpId, call: CallId, conversation: ConvId, conn: Conn, callee: UserId,
             silenced: bool, calleeBusy: bool, now: int)
    | Accept(op: OpId, call: CallId, conn: Conn, now: int)
    | HangUp(op: OpId, call: CallId, user: UserId, action: Action)
    | Resume(op: OpId, call: CallId, conn: Conn)
    | Close(conn: Conn, at: int)
    | HandleClosed(op: OpId, conn: Conn, now: int)
    | Continue(op: OpId, now: int)
    | SweepRinging(now: int)
    | SweepGone(now: int)
    | Announce(call: CallId)

  // ---- one UPDATE ----------------------------------------------------------------------------------

  function EndRow(c: Call, reason: Reason, now: int): Call {
    c.(status := Ended, endReason := Some(reason), endedAt := Some(now))
  }

  /** The ids an `UPDATE ... WHERE p RETURNING` returns. */
  function Hit(rows: Table, p: Call -> bool): set<CallId> {
    set id | id in rows && p(rows[id])
  }

  function UpdateWhere(rows: Table, p: Call -> bool, f: Call -> Call): (r: Table)
    ensures r.Keys == rows.Keys
    ensures forall id | id in rows :: r[id] == if p(rows[id]) then f(rows[id]) else rows[id]
  {
    map id | id in rows :: if p(rows[id]) then f(rows[id]) else rows[id]
  }

  function Ending(reason: Reason, now: int): Call -> Call {
    (c: Call) => EndRow(c, reason, now)
  }

  /** Ends every row that satisfies `p`; whoever runs this has won each of them. */
  function EndWhere(s: State, p: Call -> bool, reason: Reason, now: int): State {
    s.(rows := UpdateWhere(s.rows, p, Ending(reason, now)),
       won := s.won + multiset(Hit(s.rows, p)))
  }

  /** `endCall`: ends one call if it is still in `from`. */
  function EndIf(s: State, id: CallId, reason: Reason, from: Status, now: int): State {
    if id in s.rows && s.rows[id].status == from
    then s.(rows := s.rows[id := EndRow(s.rows[id], reason, now)], won := s.won + multiset{id})
    else s
  }

  function Publish(s: State, channel: Channel, news: News, id: CallId): State {
    s.(published := s.published + [Publication(channel, news, id)])
  }

  predicate RungOut(c: Call, now: int, l: Limits) {
    c.status == Ringing && c.createdAt < now - l.ring
  }

  predicate GoneTooLong(c: Call, now: int, l: Limits) {
    c.status == Active && (
      || (c.callerGone.Some? && c.callerGone.value < now - l.grace)
      || (c.calleeGone.Some? && c.calleeGone.value < now - l.grace))
  }

  // The WHERE and SET clauses of the updates that touch many rows.

  function RingingFrom(conn: Conn): Call -> bool {
    (c: Call) => c.callerConn == conn && c.status == Ringing
  }

  function ActiveFrom(conn: Conn): Call -> bool {
    (c: Call) => c.callerConn == conn && c.status == Active
  }

  function ActiveTo(conn: Conn): Call -> bool {
    (c: Call) => c.calleeConn == Some(conn) && c.status == Active
  }

  function CallerGoneAt(at: int): Call -> Call {
    (c: Call) => c.(callerGone := Some(at))
  }

  function CalleeGoneAt(at: int): Call -> Call {
    (c: Call) => c.(calleeGone := Some(at))
  }

  function RungOutAt(now: int, l: Limits): Call -> bool {
    (c: Call) => RungOut(c, now, l)
  }

  function GoneTooLongAt(now: int, l: Limits): Call -> bool {
    (c: Call) => GoneTooLong(c, now, l)
  }

  // ---- the handlers --------------------------------------------------------------------------------

  function DoInvite(s: State, e: Event): State
    requires e.Invite?
  {
    if e.op in s.todo || e.call in s.rows || e.callee == e.conn.user then s
    else
      var row := Call(e.conversation, e.conn.user, e.callee, Ringing, None, e.conn, None, None, None,
                      e.silenced, e.now, None, None);
      var s1 := s.(rows := s.rows[e.call := row]);
      if e.silenced then s1
      else if e.calleeBusy then s1.(todo := s.todo[e.op := EndBusy(e.call)])
      else s1.(todo := s.todo[e.op := TellCallee(e.call)])
  }

  function DoAccept(s: State, op: OpId, id: CallId, conn: Conn, now: int): State {
    if op in s.todo then s
    else if id in s.rows && s.rows[id].callee == conn.user && s.rows[id].status == Ringing && !s.rows[id].silenced
    then s.(rows := s.rows[id := s.rows[id].(status := Active, calleeConn := Some(conn), answeredAt := Some(now))],
            todo := s.todo[op := TellAccepted(id)])
    else s.(todo := s.todo[op := TellLoser(id, conn)])
  }

  /** What `hangUp` decides from the row it reads; the UPDATE comes later. */
  function Decide(c: Call, user: UserId, action: Action): Option<Reason> {
    if c.status == Ended || (c.caller != user && c.callee != user) then None
    else if c.status == Ringing then
      if c.caller == user && action != Decline then Some(Cancelled)
      else if c.callee == user && action != Cancel && !c.silenced then Some(Declined)
      else None
    else if action == End then Some(Completed)
    else None
  }

  function DoHangUp(s: State, op: OpId, id: CallId, user: UserId, action: Action): State {
    if op in s.todo || id !in s.rows then s
    else match Decide(s.rows[id], user, action)
      case None => s
      case Some(reason) => s.(todo := s.todo[op := HangUpIf(id, reason, s.rows[id].status)])
  }

  function DoResume(s: State, op: OpId, id: CallId, conn: Conn): State {
    if op in s.todo then s
    else if id in s.rows && s.rows[id].caller == conn.user && s.rows[id].status == Active
    then
      var row := s.rows[id].(callerConn := conn, callerGone := None);
      s.(rows := s.rows[id := row], todo := s.todo[op := TellResumed(id, conn, PeerOf(row, conn))])
    else s.(todo := s.todo[op := ResumeAsCallee(id, conn)])
  }

  /** `peerConnectionOf`. */
  function PeerOf(c: Call, conn: Conn): Option<Conn> {
    if c.status != Active then None
    else if c.callerConn == conn then c.calleeConn
    else if c.calleeConn == Some(conn) then Some(c.callerConn)
    else None
  }

  /** The first UPDATE of `handleConnectionGone`. */
  function DoHandleClosed(s: State, op: OpId, conn: Conn, now: int): State {
    if op in s.todo || conn !in s.closed || now < s.closed[conn] then s
    else
      EndWhere(s, RingingFrom(conn), Cancelled, now)
      .(todo := s.todo[op := MarkCaller(conn, now)])
  }

  function DoContinue(s: State, op: OpId, now: int): State
    requires op in s.todo
  {
    var done := s.(todo := s.todo - {op});
    match s.todo[op]
    case EndBusy(id) => EndIf(done, id, Busy, Ringing, now)
    case TellCallee(id) => if id in s.rows then Publish(done, ToUser(s.rows[id].callee), Incoming, id) else done
    case TellAccepted(id) =>
      if id in s.rows
      then Publish(Publish(done, ToUser(s.rows[id].callee), Accepted, id), ToUser(s.rows[id].caller), Accepted, id)
      else done
    case TellLoser(id, conn) =>
      if id !in s.rows || s.rows[id].callee != conn.user then done
      else if s.rows[id].status == Active then Publish(done, ToConn(conn), Accepted, id)
      else if s.rows[id].status == Ended then Publish(done, ToConn(conn), HasEnded, id)
      else done
    case HangUpIf(id, reason, from) => EndIf(done, id, reason, from, now)
    case MarkCaller(conn, at) =>
      s.(rows := UpdateWhere(s.rows, ActiveFrom(conn), CallerGoneAt(at)),
         todo := s.todo[op := MarkCallee(conn, at)])
    case MarkCallee(conn, at) =>
      done.(rows := UpdateWhere(s.rows, ActiveTo(conn), CalleeGoneAt(at)))
    case ResumeAsCallee(id, conn) =>
      if id in s.rows && s.rows[id].callee == conn.user && s.rows[id].status == Active
      then
        var row := s.rows[id].(calleeConn := Some(conn), calleeGone := None);
        s.(rows := s.rows[id := row], todo := s.todo[op := TellResumed(id, conn, PeerOf(row, conn))])
      else s.(todo := s.todo[op := TellIfEnded(id, conn)])
    case TellResumed(id, conn, peer) =>
      var s1 := Publish(done, ToConn(conn), Resumed, id);
      if peer.Some? then Publish(s1, ToConn(peer.value), Resumed, id) else s1
    case TellIfEnded(id, conn) =>
      if id in s.rows && s.rows[id].status == Ended then Publish(done, ToConn(conn), HasEnded, id) else done
  }

  /** `announceEnded`. */
  function DoAnnounce(s: State, id: CallId): State {
    if s.won[id] == 0 || id !in s.rows then s
    else
      var c := s.rows[id];
      var s1 := Publish(s.(won := s.won - multiset{id}, announced := s.announced + [id]), ToUser(c.caller), HasEnded, id);
      if c.silenced then s1 else Publish(s1, ToUser(c.callee), HasEnded, id)
  }

  function Step(s: State, l: Limits, e: Event): State {
    match e
    case Invite(_, _, _, _, _, _, _, _) => DoInvite(s, e)
    case Accept(op, id, conn, now) => DoAccept(s, op, id, conn, now)
    case HangUp(op, id, user, action) => DoHangUp(s, op, id, user, action)
    case Resume(op, id, conn) => DoResume(s, op, id, conn)
    case Close(conn, at) => if conn in s.closed then s else s.(closed := s.closed[conn := at])
    case HandleClosed(op, conn, now) => DoHandleClosed(s, op, conn, now)
    case Continue(op, now) => if op in s.todo then DoContinue(s, op, now) else s
    case SweepRinging(now) => EndWhere(s, RungOutAt(now, l), Missed, now)
    case SweepGone(now) => EndWhere(s, GoneTooLongAt(now, l), ConnectionLost, now)
    case Announce(id) => DoAnnounce(s, id)
  }

  function Run(l: Limits, events: seq<Event>): State {
    if events == [] then Empty else Step(Run(l, events[..|events| - 1]), l, events[|events| - 1])
  }

  // ---- what every row keeps ------------------------------------------------------------------------

  /** A mark is set only while the side's current connection is one that has closed, no later. */
  predicate MarkOk(conn: Option<Conn>, gone: Option<int>, closed: map<Conn, int>) {
    gone.Some? ==> conn.Some? && conn.value in closed && closed[conn.value] <= gone.value
  }

  predicate RightUsers(c: Call) {
    && c.caller != c.callee
    && c.callerConn.user == c.caller
    && (c.calleeConn.Some? ==> c.calleeConn.value.user == c.callee)
  }

  /** The end reason tells whether the call was answered, and why it was due to end. */
  predicate ReasonOk(c: Call, l: Limits) {
    && (c.status == Ended <==> c.endReason.Some?)
    && (c.status == Ended <==> c.endedAt.Some?)
    && (c.endReason.Some? ==>
          match c.endReason.value
          case Completed => c.answeredAt.Some?
          case ConnectionLost =>
            && c.answeredAt.Some?
            && (|| (c.callerGone.Some? && c.callerGone.value + l.grace < c.endedAt.value)
                || (c.calleeGone.Some? && c.calleeGone.value + l.grace < c.endedAt.value))
          case Missed => c.answeredAt.None? && c.createdAt + l.ring < c.endedAt.value
          case Unavailable => false
          case _ => c.answeredAt.None?)
  }

  predicate RowOk(c: Call, closed: map<Conn, int>, l: Limits) {
    && RightUsers(c)
    && (c.calleeConn.Some? <==> c.answeredAt.Some?)
    && (c.status == Ringing ==> c.answeredAt.None?)
    && (c.status == Active ==> c.answeredAt.Some?)
    && (c.silenced ==> c.answeredAt.None?)
    && MarkOk(Some(c.callerConn), c.callerGone, closed)
    && MarkOk(c.calleeConn, c.calleeGone, closed)
    && ReasonOk(c, l)
  }

  ghost predicate RowsOk(s: State, l: Limits) {
    forall id | id in s.rows :: RowOk(s.rows[id], s.closed, l)
  }

  /** A pending hang-up carries a reason that fits the status it will look for; a pending mark comes
   *  from a connection that has closed. */
  predicate TodoOk(t: Todo, s: State) {
    match t
    case HangUpIf(_, reason, from) =>
      if from == Active then reason == Completed else from == Ringing && (reason == Cancelled || reason == Declined)
    case MarkCaller(conn, at) => conn in s.closed && s.closed[conn] <= at
    case MarkCallee(conn, at) => conn in s.closed && s.closed[conn] <= at
    case TellCallee(id) => id in s.rows && !s.rows[id].silenced
    case TellAccepted(id) => id in s.rows && !s.rows[id].silenced
    case _ => true
  }

  ghost predicate TodosOk(s: State) {
    forall op | op in s.todo :: TodoOk(s.todo[op], s)
  }

  predicate HasEndedRow(s: State, id: CallId) {
    id in s.rows && s.rows[id].status == Ended
  }

  /** An ended call was won by exactly one step, and is announced or about to be; nothing else is. */
  ghost predicate WonOnce(s: State) {
    forall id: CallId ::
      s.won[id] + multiset(s.announced)[id] == if HasEndedRow(s, id) then 1 else 0
  }

  /** A silenced call reaches no user channel but its caller's. */
  ghost predicate Silent(s: State) {
    forall i | 0 <= i < |s.published| && s.published[i].channel.ToUser? ::
      s.published[i].call in s.rows &&
      (s.rows[s.published[i].call].silenced ==> s.published[i].channel.user == s.rows[s.published[i].call].caller)
  }

  ghost predicate Inv(s: State, l: Limits) {
    RowsOk(s, l) && TodosOk(s) && WonOnce(s) && Silent(s)
  }

  // ---- how rows may change -------------------------------------------------------------------------

  function Rank(s: Status): nat {
    match s
    case Ringing => 0
    case Active => 1
    case Ended => 2
  }

  /** A row only moves forward, keeps who and what it is about, and is final once ended. */
  predicate Advances(c: Call, d: Call) {
    && Rank(c.status) <= Rank(d.status)
    && (c.status == Ended ==> d == c)
    && (c.conversation, c.caller, c.callee, c.silenced, c.createdAt)
       == (d.conversation, d.caller, d.callee, d.silenced, d.createdAt)
    && (c.answeredAt.Some? ==> d.answeredAt == c.answeredAt)
  }

  ghost predicate RowsAdvance(s: State, t: State) {
    forall id | id in s.rows :: id in t.rows && Advances(s.rows[id], t.rows[id])
  }

  /** An update that leaves a row in order, further on. */
  predicate Better(c: Call, d: Call, closed: map<Conn, int>, l: Limits) {
    Advances(c, d) && RowOk(d, closed, l)
  }

  /** What an event must do to the rows, and leave alone, for the invariant to survive it. */
  ghost predicate RowsBetter(s: State, t: State, l: Limits) {
    && (forall id | id in s.rows :: id in t.rows && Better(s.rows[id], t.rows[id], t.closed, l))
    && (forall id | id in t.rows && id !in s.rows :: t.rows[id].status == Ringing && RowOk(t.rows[id], t.closed, l))
  }

  /** The ended rows are the ones it wins. */
  ghost predicate WinsEnds(s: State, t: State) {
    forall id: CallId ::
      t.won[id] + multiset(t.announced)[id] + (if HasEndedRow(s, id) then 1 else 0)
      == s.won[id] + multiset(s.announced)[id] + (if HasEndedRow(t, id) then 1 else 0)
  }

  lemma OtherRowsStay(s: State, t: State, id: CallId, l: Limits)
    requires RowsOk(s, l) && t.closed == s.closed && id in s.rows && id in t.rows
    requires t.rows == s.rows[id := t.rows[id]] && Better(s.rows[id], t.rows[id], s.closed, l)
    ensures RowsBetter(s, t, l)
  {
    forall k | k in s.rows ensures k in t.rows && Better(s.rows[k], t.rows[k], t.closed, l) {
      if k != id { assert RowOk(s.rows[k], s.closed, l); }
    }
  }

  lemma NothingEnds(s: State, t: State)
    requires t.won == s.won && t.announced == s.announced
    requires forall id: CallId :: HasEndedRow(t, id) <==> HasEndedRow(s, id)
    ensures WinsEnds(s, t)
  {
  }

  /** The reason fits a row that has not ended, so the row it ends with is in order. */
  predicate EndsWell(c: Call, reason: Reason, now: int, closed: map<Conn, int>, l: Limits) {
    c.status != Ended && Better(c, EndRow(c, reason, now), closed, l)
  }

  lemma EndWhereRows(s: State, p: Call -> bool, reason: Reason, now: int, l: Limits)
    requires RowsOk(s, l)
    requires forall c | RowOk(c, s.closed, l) && p(c) :: EndsWell(c, reason, now, s.closed, l)
    ensures RowsBetter(s, EndWhere(s, p, reason, now), l)
  {
    var t := EndWhere(s, p, reason, now);
    forall id | id in s.rows ensures id in t.rows && Better(s.rows[id], t.rows[id], t.closed, l) {
      assert RowOk(s.rows[id], s.closed, l);
    }
  }

  lemma EndWhereWins(s: State, p: Call -> bool, reason: Reason, now: int)
    requires forall id | id in s.rows && p(s.rows[id]) :: s.rows[id].status != Ended
    ensures WinsEnds(s, EndWhere(s, p, reason, now))
  {
    var t := EndWhere(s, p, reason, now);
    forall id: CallId
      ensures t.won[id] + (if HasEndedRow(s, id) then 1 else 0) == s.won[id] + (if HasEndedRow(t, id) then 1 else 0)
    {
      assert id in Hit(s.rows, p) <==> id in s.rows && p(s.rows[id]);
    }
  }

  lemma EndWhereIsBetter(s: State, p: Call -> bool, reason: Reason, now: int, l: Limits)
    requires RowsOk(s, l)
    requires forall c | RowOk(c, s.closed, l) && p(c) :: EndsWell(c, reason, now, s.closed, l)
    ensures RowsBetter(s, EndWhere(s, p, reason, now), l)
    ensures WinsEnds(s, EndWhere(s, p, reason, now))
  {
    EndWhereRows(s, p, reason, now, l);
    forall id | id in s.rows && p(s.rows[id]) ensures s.rows[id].status != Ended {
      assert RowOk(s.rows[id], s.closed, l);
    }
    EndWhereWins(s, p, reason, now);
  }

  lemma EndIfFits(c: Call, reason: Reason, now: int, closed: map<Conn, int>, l: Limits)
    requires RowOk(c, closed, l) && c.status != Ended
    requires if c.status == Active then reason == Completed
             else reason == Cancelled || reason == Declined || reason == Busy
    ensures EndsWell(c, reason, now, closed, l)
  {
  }

  lemma EndCallIsBetter(s: State, id: CallId, reason: Reason, from: Status, now: int, l: Limits)
    requires RowsOk(s, l) && from != Ended
    requires if from == Active then reason == Completed
             else reason == Cancelled || reason == Declined || reason == Busy
    ensures RowsBetter(s, EndIf(s, id, reason, from, now), l)
    ensures WinsEnds(s, EndIf(s, id, reason, from, now))
  {
    if id in s.rows && s.rows[id].status == from {
      assert RowOk(s.rows[id], s.closed, l);
      EndIfFits(s.rows[id], reason, now, s.closed, l);
      OtherRowsStay(s, EndIf(s, id, reason, from, now), id, l);
    } else {
      TellIsBetter(s, s, l);
    }
  }

  lemma RowAdded(s: State, t: State, id: CallId, l: Limits)
    requires RowsOk(s, l) && id !in s.rows && t.closed == s.closed && id in t.rows
    requires t.rows == s.rows[id := t.rows[id]] && t.rows[id].status == Ringing && RowOk(t.rows[id], t.closed, l)
    ensures RowsBetter(s, t, l)
  {
    forall k | k in s.rows ensures k in t.rows && Better(s.rows[k], t.rows[k], t.closed, l) {
      assert RowOk(s.rows[k], s.closed, l);
    }
  }

  lemma InviteIsBetter(s: State, e: Event, l: Limits)
    requires RowsOk(s, l) && e.Invite?
    ensures RowsBetter(s, DoInvite(s, e), l) && WinsEnds(s, DoInvite(s, e))
  {
    var t := DoInvite(s, e);
    if t.rows == s.rows {
      TellIsBetter(s, t, l);
    } else {
      RowAdded(s, t, e.call, l);
      NothingEnds(s, t);
    }
  }

  lemma AcceptIsBetter(s: State, op: OpId, id: CallId, conn: Conn, now: int, l: Limits)
    requires RowsOk(s, l)
    ensures RowsBetter(s, DoAccept(s, op, id, conn, now), l) && WinsEnds(s, DoAccept(s, op, id, conn, now))
  {
    var t := DoAccept(s, op, id, conn, now);
    if t.rows == s.rows {
      TellIsBetter(s, t, l);
    } else {
      assert RowOk(s.rows[id], s.closed, l);
      OtherRowsStay(s, t, id, l);
      NothingEnds(s, t);
    }
  }

  /** Rebinding either end of an active call to a socket of the right user. */
  lemma RebindFits(c: Call, conn: Conn, closed: map<Conn, int>, l: Limits)
    requires RowOk(c, closed, l) && c.status == Active
    ensures c.caller == conn.user ==> Better(c, c.(callerConn := conn, callerGone := None), closed, l)
    ensures c.callee == conn.user ==> Better(c, c.(calleeConn := Some(conn), calleeGone := None), closed, l)
  {
  }

  lemma ResumeIsBetter(s: State, op: OpId, id: CallId, conn: Conn, l: Limits)
    requires RowsOk(s, l)
    ensures RowsBetter(s, DoResume(s, op, id, conn), l) && WinsEnds(s, DoResume(s, op, id, conn))
  {
    var t := DoResume(s, op, id, conn);
    if op !in s.todo && id in s.rows && s.rows[id].caller == conn.user && s.rows[id].status == Active {
      assert RowOk(s.rows[id], s.closed, l);
      RebindFits(s.rows[id], conn, s.closed, l);
      OtherRowsStay(s, t, id, l);
      NothingEnds(s, t);
    } else {
      TellIsBetter(s, t, l);
    }
  }

  lemma ResumeAsCalleeIsBetter(s: State, op: OpId, now: int, l: Limits)
    requires RowsOk(s, l) && op in s.todo && s.todo[op].ResumeAsCallee?
    ensures RowsBetter(s, DoContinue(s, op, now), l) && WinsEnds(s, DoContinue(s, op, now))
  {
    var id, conn := s.todo[op].call, s.todo[op].conn;
    var t := DoContinue(s, op, now);
    if id in s.rows && s.rows[id].callee == conn.user && s.rows[id].status == Active {
      assert RowOk(s.rows[id], s.closed, l);
      RebindFits(s.rows[id], conn, s.closed, l);
      OtherRowsStay(s, t, id, l);
      NothingEnds(s, t);
    } else {
      TellIsBetter(s, t, l);
    }
  }

  /** Marks of a connection that has closed, on the side it is bound to. */
  lemma MarkFits(c: Call, conn: Conn, at: int, closed: map<Conn, int>, l: Limits)
    requires RowOk(c, closed, l) && conn in closed && closed[conn] <= at
    ensures ActiveFrom(conn)(c) ==> Better(c, CallerGoneAt(at)(c), closed, l)
    ensures ActiveTo(conn)(c) ==> Better(c, CalleeGoneAt(at)(c), closed, l)
    ensures Better(c, c, closed, l)
  {
  }

  lemma MarkIsBetter(s: State, op: OpId, now: int, l: Limits)
    requires RowsOk(s, l) && TodosOk(s) && op in s.todo && (s.todo[op].MarkCaller? || s.todo[op].MarkCallee?)
    ensures RowsBetter(s, DoContinue(s, op, now), l) && WinsEnds(s, DoContinue(s, op, now))
  {
    var t := DoContinue(s, op, now);
    assert TodoOk(s.todo[op], s);
    forall k | k in s.rows ensures k in t.rows && Better(s.rows[k], t.rows[k], t.closed, l) {
      assert RowOk(s.rows[k], s.closed, l);
      MarkFits(s.rows[k], s.todo[op].conn, s.todo[op].at, s.closed, l);
    }
    NothingEnds(s, t);
  }

  lemma TellIsBetter(s: State, t: State, l: Limits)
    requires RowsOk(s, l)
    requires t.rows == s.rows && t.closed == s.closed && t.won == s.won && t.announced == s.announced
    ensures RowsBetter(s, t, l) && WinsEnds(s, t)
  {
    forall k | k in s.rows ensures Better(s.rows[k], t.rows[k], t.closed, l) {
      assert RowOk(s.rows[k], s.closed, l);
    }
  }

  lemma ContinueIsBetter(s: State, op: OpId, now: int, l: Limits)
    requires RowsOk(s, l) && TodosOk(s) && op in s.todo
    ensures RowsBetter(s, DoContinue(s, op, now), l) && WinsEnds(s, DoContinue(s, op, now))
  {
    match s.todo[op]
    case EndBusy(id) => EndLaterIsBetter(s, op, id, Busy, Ringing, now, l);
    case HangUpIf(id, reason, from) =>
      assert TodoOk(s.todo[op], s);
      EndLaterIsBetter(s, op, id, reason, from, now, l);
    case MarkCaller(conn, at) => MarkIsBetter(s, op, now, l);
    case MarkCallee(conn, at) => MarkIsBetter(s, op, now, l);
    case ResumeAsCallee(id, conn) => ResumeAsCalleeIsBetter(s, op, now, l);
    case _ => TellIsBetter(s, DoContinue(s, op, now), l);
  }

  lemma EndLaterIsBetter(s: State, op: OpId, id: CallId, reason: Reason, from: Status, now: int, l: Limits)
    requires RowsOk(s, l) && from != Ended
    requires if from == Active then reason == Completed
             else reason == Cancelled || reason == Declined || reason == Busy
    ensures var t := EndIf(s.(todo := s.todo - {op}), id, reason, from, now);
            RowsBetter(s, t, l) && WinsEnds(s, t)
  {
    var done := s.(todo := s.todo - {op});
    assert RowsOk(done, l);
    EndCallIsBetter(done, id, reason, from, now, l);
  }

  lemma CloseIsBetter(s: State, conn: Conn, at: int, l: Limits)
    requires RowsOk(s, l) && conn !in s.closed
    ensures RowsBetter(s, s.(closed := s.closed[conn := at]), l)
    ensures WinsEnds(s, s.(closed := s.closed[conn := at]))
  {
    var t := s.(closed := s.closed[conn := at]);
    forall k | k in s.rows ensures Better(s.rows[k], t.rows[k], t.closed, l) {
      assert RowOk(s.rows[k], s.closed, l);
    }
    NothingEnds(s, t);
  }

  /** A won end is announced. */
  lemma WonToAnnounced(s: State, t: State, id: CallId)
    requires t.rows == s.rows && s.won[id] > 0
    requires t.won == s.won - multiset{id} && t.announced == s.announced + [id]
    ensures WinsEnds(s, t)
  {
    AnnouncedCounts(s.announced, id);
    forall k: CallId ensures HasEndedRow(t, k) <==> HasEndedRow(s, k) {
    }
  }

  lemma AnnounceWins(s: State, id: CallId)
    ensures WinsEnds(s, DoAnnounce(s, id))
  {
    if s.won[id] == 0 || id !in s.rows {
      NothingEnds(s, s);
    } else {
      WonToAnnounced(s, DoAnnounce(s, id), id);
    }
  }

  lemma AnnouncedCounts(announced: seq<CallId>, id: CallId)
    ensures forall k: CallId :: multiset(announced + [id])[k] == multiset(announced)[k] + if k == id then 1 else 0
  {
  }

  lemma AnnounceIsBetter(s: State, id: CallId, l: Limits)
    requires RowsOk(s, l)
    ensures RowsBetter(s, DoAnnounce(s, id), l) && WinsEnds(s, DoAnnounce(s, id))
  {
    AnnounceWins(s, id);
    forall k | k in s.rows ensures Better(s.rows[k], s.rows[k], s.closed, l) {
      assert RowOk(s.rows[k], s.closed, l);
    }
  }

  lemma HandleClosedIsBetter(s: State, op: OpId, conn: Conn, now: int, l: Limits)
    requires RowsOk(s, l)
    ensures RowsBetter(s, DoHandleClosed(s, op, conn, now), l) && WinsEnds(s, DoHandleClosed(s, op, conn, now))
  {
    if op in s.todo || conn !in s.closed || now < s.closed[conn] {
      TellIsBetter(s, s, l);
    } else {
      forall c | RowOk(c, s.closed, l) && RingingFrom(conn)(c) ensures EndsWell(c, Cancelled, now, s.closed, l) {
        EndIfFits(c, Cancelled, now, s.closed, l);
      }
      EndWhereIsBetter(s, RingingFrom(conn), Cancelled, now, l);
    }
  }

  lemma SweepRingingIsBetter(s: State, now: int, l: Limits)
    requires RowsOk(s, l)
    ensures RowsBetter(s, EndWhere(s, RungOutAt(now, l), Missed, now), l)
    ensures WinsEnds(s, EndWhere(s, RungOutAt(now, l), Missed, now))
  {
    EndWhereIsBetter(s, RungOutAt(now, l), Missed, now, l);
  }

  lemma SweepGoneIsBetter(s: State, now: int, l: Limits)
    requires RowsOk(s, l)
    ensures RowsBetter(s, EndWhere(s, GoneTooLongAt(now, l), ConnectionLost, now), l)
    ensures WinsEnds(s, EndWhere(s, GoneTooLongAt(now, l), ConnectionLost, now))
  {
    EndWhereIsBetter(s, GoneTooLongAt(now, l), ConnectionLost, now, l);
  }

  lemma RequestIsBetter(s: State, l: Limits, e: Event)
    requires RowsOk(s, l) && (e.Invite? || e.Accept? || e.HangUp? || e.Resume?)
    ensures RowsBetter(s, Step(s, l, e), l) && WinsEnds(s, Step(s, l, e))
  {
    match e
    case Invite(_, _, _, _, _, _, _, _) => InviteIsBetter(s, e, l);
    case Accept(op, id, conn, now) => AcceptIsBetter(s, op, id, conn, now, l);
    case HangUp(op, id, user, action) => TellIsBetter(s, DoHangUp(s, op, id, user, action), l);
    case Resume(op, id, conn) => ResumeIsBetter(s, op, id, conn, l);
  }

  lemma CloseStepIsBetter(s: State, l: Limits, conn: Conn, at: int)
    requires RowsOk(s, l)
    ensures RowsBetter(s, Step(s, l, Close(conn, at)), l) && WinsEnds(s, Step(s, l, Close(conn, at)))
  {
    if conn !in s.closed { CloseIsBetter(s, conn, at, l); } else { TellIsBetter(s, s, l); }
  }

  lemma ContinueStepIsBetter(s: State, l: Limits, op: OpId, now: int)
    requires RowsOk(s, l) && TodosOk(s)
    ensures RowsBetter(s, Step(s, l, Continue(op, now)), l) && WinsEnds(s, Step(s, l, Continue(op, now)))
  {
    if op in s.todo { ContinueIsBetter(s, op, now, l); } else { TellIsBetter(s, s, l); }
  }

  lemma HandleClosedStepIsBetter(s: State, l: Limits, e: Event)
    requires RowsOk(s, l) && e.HandleClosed?
    ensures RowsBetter(s, Step(s, l, e), l) && WinsEnds(s, Step(s, l, e))
  {
    HandleClosedIsBetter(s, e.op, e.conn, e.now, l);
  }

  lemma SweepRingingStepIsBetter(s: State, l: Limits, e: Event)
    requires RowsOk(s, l) && e.SweepRinging?
    ensures RowsBetter(s, Step(s, l, e), l) && WinsEnds(s, Step(s, l, e))
  {
    SweepRingingIsBetter(s, e.now, l);
  }

  lemma SweepGoneStepIsBetter(s: State, l: Limits, e: Event)
    requires RowsOk(s, l) && e.SweepGone?
    ensures RowsBetter(s, Step(s, l, e), l) && WinsEnds(s, Step(s, l, e))
  {
    SweepGoneIsBetter(s, e.now, l);
  }

  lemma StepIsBetter(s: State, l: Limits, e: Event)
    requires RowsOk(s, l) && TodosOk(s)
    ensures RowsBetter(s, Step(s, l, e), l) && WinsEnds(s, Step(s, l, e))
  {
    if e.SweepRinging? {
      SweepRingingStepIsBetter(s, l, e);
    } else if e.SweepGone? {
      SweepGoneStepIsBetter(s, l, e);
    } else if e.HandleClosed? {
      HandleClosedStepIsBetter(s, l, e);
    } else if e.Continue? {
      ContinueStepIsBetter(s, l, e.op, e.now);
    } else if e.Close? {
      CloseStepIsBetter(s, l, e.conn, e.at);
    } else if e.Announce? {
      AnnounceIsBetter(s, e.call, l);
    } else {
      RequestIsBetter(s, l, e);
    }
  }

  // ---- handlers and channels -----------------------------------------------------------------------

  /** What is pending or published about a call stays true as rows advance. */
  ghost predicate Grows(s: State, t: State) {
    && (forall id | id in s.rows :: id in t.rows && t.rows[id].silenced == s.rows[id].silenced
                                    && t.rows[id].caller == s.rows[id].caller)
    && (forall conn | conn in s.closed :: conn in t.closed && t.closed[conn] == s.closed[conn])
  }

  lemma StepGrows(s: State, l: Limits, e: Event)
    requires RowsOk(s, l) && TodosOk(s)
    ensures Grows(s, Step(s, l, e))
  {
    StepIsBetter(s, l, e);
    BetterGrows(s, Step(s, l, e), l);
    StepKeepsClosed(s, l, e);
  }

  lemma BetterGrows(s: State, t: State, l: Limits)
    requires RowsBetter(s, t, l)
    ensures forall id | id in s.rows :: id in t.rows && t.rows[id].silenced == s.rows[id].silenced
                                        && t.rows[id].caller == s.rows[id].caller
  {
    forall id | id in s.rows
      ensures id in t.rows && t.rows[id].silenced == s.rows[id].silenced && t.rows[id].caller == s.rows[id].caller
    {
      assert Better(s.rows[id], t.rows[id], t.closed, l);
    }
  }

  lemma StepKeepsClosed(s: State, l: Limits, e: Event)
    ensures forall conn | conn in s.closed :: conn in Step(s, l, e).closed && Step(s, l, e).closed[conn] == s.closed[conn]
  {
  }

  lemma StepKeepsTodos(s: State, l: Limits, e: Event)
    requires RowsOk(s, l) && TodosOk(s) && Grows(s, Step(s, l, e))
    ensures TodosOk(Step(s, l, e))
  {
    var t := Step(s, l, e);
    NewTodoOk(s, l, e);
    forall op | op in t.todo ensures TodoOk(t.todo[op], t) {
      if op in s.todo && t.todo[op] == s.todo[op] {
        assert TodoOk(s.todo[op], s);
      }
    }
  }

  lemma NewTodoOk(s: State, l: Limits, e: Event)
    requires RowsOk(s, l) && TodosOk(s) && Grows(s, Step(s, l, e))
    ensures forall op | op in Step(s, l, e).todo && (op in s.todo ==> Step(s, l, e).todo[op] != s.todo[op]) ::
              TodoOk(Step(s, l, e).todo[op], Step(s, l, e))
  {
    match e
    case Continue(op, now) =>
      if op in s.todo {
        assert TodoOk(s.todo[op], s);
        ContinueTodoOk(s, op, now);
      }
    case HangUp(op, id, user, action) => HangUpTodoOk(s, op, id, user, action);
    case Accept(op, id, conn, now) => AcceptTodoOk(s, op, id, conn, now);
    case Invite(_, _, _, _, _, _, _, _) => InviteTodoOk(s, e);
    case _ =>
  }

  lemma AcceptTodoOk(s: State, op: OpId, id: CallId, conn: Conn, now: int)
    ensures var t := DoAccept(s, op, id, conn, now);
            forall q | q in t.todo && (q in s.todo ==> t.todo[q] != s.todo[q]) :: TodoOk(t.todo[q], t)
  {
  }

  lemma InviteTodoOk(s: State, e: Event)
    requires e.Invite?
    ensures var t := DoInvite(s, e);
            forall q | q in t.todo && (q in s.todo ==> t.todo[q] != s.todo[q]) :: TodoOk(t.todo[q], t)
  {
  }

  lemma HangUpTodoOk(s: State, op: OpId, id: CallId, user: UserId, action: Action)
    ensures var t := DoHangUp(s, op, id, user, action);
            forall q | q in t.todo && (q in s.todo ==> t.todo[q] != s.todo[q]) :: TodoOk(t.todo[q], t)
  {
  }

  lemma ContinueTodoOk(s: State, op: OpId, now: int)
    requires op in s.todo && TodoOk(s.todo[op], s)
    ensures forall q | q in DoContinue(s, op, now).todo && q != op :: q in s.todo && DoContinue(s, op, now).todo[q] == s.todo[q]
    ensures op in DoContinue(s, op, now).todo ==> TodoOk(DoContinue(s, op, now).todo[op], DoContinue(s, op, now))
  {
  }

  predicate PubOk(p: Publication, s: State) {
    p.channel.ToUser? ==> p.call in s.rows && (s.rows[p.call].silenced ==> p.channel.user == s.rows[p.call].caller)
  }

  /** What a step adds to the log keeps a silenced call off its callee's channel. */
  ghost predicate AddsOk(s: State, t: State) {
    s.published <= t.published && forall i | |s.published| <= i < |t.published| :: PubOk(t.published[i], t)
  }

  lemma ContinuePublishesOk(s: State, op: OpId, now: int)
    requires op in s.todo && TodoOk(s.todo[op], s)
    ensures AddsOk(s, DoContinue(s, op, now))
  {
  }

  lemma AnnouncePublishesOk(s: State, id: CallId)
    ensures AddsOk(s, DoAnnounce(s, id))
  {
  }

  lemma ResumePublishesOk(s: State, op: OpId, id: CallId, conn: Conn)
    ensures AddsOk(s, DoResume(s, op, id, conn))
  {
  }

  lemma StepPublishesOk(s: State, l: Limits, e: Event)
    requires TodosOk(s)
    ensures AddsOk(s, Step(s, l, e))
  {
    match e
    case Continue(op, now) =>
      if op in s.todo {
        assert TodoOk(s.todo[op], s);
        ContinuePublishesOk(s, op, now);
      }
    case Announce(id) => AnnouncePublishesOk(s, id);
    case Resume(op, id, conn) => ResumePublishesOk(s, op, id, conn);
    case _ =>
  }

  lemma StepKeepsSilent(s: State, l: Limits, e: Event)
    requires RowsOk(s, l) && TodosOk(s) && Silent(s)
    ensures Silent(Step(s, l, e))
  {
    StepGrows(s, l, e);
    StepPublishesOk(s, l, e);
    var t := Step(s, l, e);
    forall i | 0 <= i < |t.published| && t.published[i].channel.ToUser? ensures PubOk(t.published[i], t) {
      if i < |s.published| {
        assert t.published[i] == s.published[i] && PubOk(s.published[i], s);
      }
    }
  }

  lemma StepKeepsInv(s: State, l: Limits, e: Event)
    requires Inv(s, l)
    ensures Inv(Step(s, l, e), l)
  {
    StepIsBetter(s, l, e);
    StepGrows(s, l, e);
    StepKeepsTodos(s, l, e);
    StepKeepsSilent(s, l, e);
    BetterKeepsRows(s, Step(s, l, e), l);
    WinsKeepOnce(s, Step(s, l, e));
  }

  lemma BetterKeepsRows(s: State, t: State, l: Limits)
    requires RowsBetter(s, t, l)
    ensures RowsOk(t, l)
  {
    forall id | id in t.rows ensures RowOk(t.rows[id], t.closed, l) {
      if id in s.rows {
        assert Better(s.rows[id], t.rows[id], t.closed, l);
      }
    }
  }

  lemma WinsKeepOnce(s: State, t: State)
    requires WonOnce(s) && WinsEnds(s, t)
    ensures WonOnce(t)
  {
    forall id: CallId
      ensures t.won[id] + multiset(t.announced)[id] == if HasEndedRow(t, id) then 1 else 0
    {
      assert s.won[id] + multiset(s.announced)[id] == if HasEndedRow(s, id) then 1 else 0;
    }
  }

  lemma {:induction false} RunKeepsInv(l: Limits, events: seq<Event>)
    ensures Inv(Run(l, events), l)
  {
    if events != [] {
      RunKeepsInv(l, events[..|events| - 1]);
      StepKeepsInv(Run(l, events[..|events| - 1]), l, events[|events| - 1]);
    }
  }

  // ---- what holds over every run -------------------------------------------------------------------

  /** Between any two moments of a run, every call only moved forward, and an ended one did not move. */
  lemma {:induction false} CallsOnlyAdvance(l: Limits, before: seq<Event>, more: seq<Event>)
    ensures RowsAdvance(Run(l, before), Run(l, before + more))
  {
    if more == [] {
      assert before + more == before;
    } else {
      var init := before + more[..|more| - 1];
      CallsOnlyAdvance(l, before, more[..|more| - 1]);
      RunKeepsInv(l, init);
      assert (before + more)[..|before + more| - 1] == init;
      var e := more[|more| - 1];
      assert (before + more)[|before + more| - 1] == e;
      StepIsBetter(Run(l, init), l, e);
      forall id | id in Run(l, before).rows
        ensures id in Run(l, before + more).rows && Advances(Run(l, before).rows[id], Run(l, before + more).rows[id])
      {
        assert Advances(Run(l, before).rows[id], Run(l, init).rows[id]);
        assert Better(Run(l, init).rows[id], Run(l, before + more).rows[id], Run(l, before + more).closed, l);
      }
    }
  }

  /** A call's end is announced at most once, only for an ended call, and by the time nobody still
   *  owes an announcement, exactly once. */
  lemma AnnouncedOnce(l: Limits, events: seq<Event>, id: CallId)
    ensures multiset(Run(l, events).announced)[id] <= 1
    ensures id in Run(l, events).announced ==> HasEndedRow(Run(l, events), id)
    ensures HasEndedRow(Run(l, events), id) && id !in Run(l, events).won ==> multiset(Run(l, events).announced)[id] == 1
  {
    RunKeepsInv(l, events);
    var s := Run(l, events);
    assert s.won[id] + multiset(s.announced)[id] == if HasEndedRow(s, id) then 1 else 0;
  }

  /** A call silenced by a block is never answered and never shows on its callee's channel. */
  lemma SilencedStaysSilent(l: Limits, events: seq<Event>, id: CallId)
    requires id in Run(l, events).rows && Run(l, events).rows[id].silenced
    ensures Run(l, events).rows[id].answeredAt == None && Run(l, events).rows[id].status != Active
    ensures forall p | p in Run(l, events).published :: p.call == id ==> p.channel != ToUser(Run(l, events).rows[id].callee)
  {
    RunKeepsInv(l, events);
    var s := Run(l, events);
    assert RowOk(s.rows[id], s.closed, l);
    forall p | p in s.published && p.call == id ensures p.channel != ToUser(s.rows[id].callee) {
      var i :| 0 <= i < |s.published| && s.published[i] == p;
    }
  }

  /** A call ended as `connection-lost` only with a bound connection that had been closed for longer
   *  than the grace: any resume in between would have bound another one. */
  lemma LostMeansGone(l: Limits, events: seq<Event>, id: CallId)
    requires id in Run(l, events).rows && Run(l, events).rows[id].endReason == Some(ConnectionLost)
    ensures var s := Run(l, events);
            var c := s.rows[id];
            c.endedAt.Some? && exists conn ::
              (conn == c.callerConn || Some(conn) == c.calleeConn)
              && conn in s.closed && s.closed[conn] + l.grace < c.endedAt.value
  {
    RunKeepsInv(l, events);
    var s := Run(l, events);
    var c := s.rows[id];
    assert RowOk(c, s.closed, l);
    if c.callerGone.Some? && c.callerGone.value + l.grace < c.endedAt.value {
      assert c.callerConn in s.closed;
    } else {
      assert c.calleeConn.value in s.closed;
    }
  }

  /** A call that `conn` is not bound to is none of that connection's business. */
  lemma HandleClosedSkips(s: State, op: OpId, conn: Conn, now: int, id: CallId)
    requires id in s.rows && s.rows[id].callerConn != conn && s.rows[id].calleeConn != Some(conn)
    requires op !in s.todo
    ensures var t := DoHandleClosed(s, op, conn, now);
            id in t.rows && t.rows[id] == s.rows[id] && (op in t.todo ==> t.todo[op] == MarkCaller(conn, now))
  {
  }

  lemma MarkSkips(s: State, l: Limits, op: OpId, conn: Conn, later: int, id: CallId)
    requires id in s.rows && s.rows[id].callerConn != conn && s.rows[id].calleeConn != Some(conn)
    requires op in s.todo ==> (s.todo[op].MarkCaller? || s.todo[op].MarkCallee?) && s.todo[op].conn == conn
    ensures var t := Step(s, l, Continue(op, later));
            && id in t.rows && t.rows[id] == s.rows[id]
            && (op in t.todo ==> t.todo[op].MarkCallee? && t.todo[op].conn == conn)
  {
  }

  lemma RunOne(l: Limits, events: seq<Event>, e: Event)
    ensures Run(l, events + [e]) == Step(Run(l, events), l, e)
  {
    assert (events + [e])[..|events|] == events;
  }

  /** The call is not, or no longer, bound to `conn`. */
  predicate Unbound(s: State, id: CallId, conn: Conn) {
    id in s.rows && s.rows[id].callerConn != conn && s.rows[id].calleeConn != Some(conn)
  }

  /** The handler that `e` belongs to, if it belongs to one. */
  predicate Of(e: Event, op: OpId) {
    (e.Invite? || e.Accept? || e.HangUp? || e.Resume? || e.HandleClosed? || e.Continue?) && e.op == op
  }

  lemma OthersContinue(s: State, other: OpId, now: int, op: OpId)
    requires other in s.todo && op != other
    ensures op in DoContinue(s, other, now).todo <==> op in s.todo
    ensures op in s.todo ==> DoContinue(s, other, now).todo[op] == s.todo[op]
  {
  }

  lemma TodoStays(s: State, l: Limits, e: Event, op: OpId)
    requires !Of(e, op)
    ensures op in Step(s, l, e).todo <==> op in s.todo
    ensures op in s.todo ==> Step(s, l, e).todo[op] == s.todo[op]
  {
    if e.Continue? {
      if e.op in s.todo { OthersContinue(s, e.op, e.now, op); }
    } else if e.Invite? || e.Accept? || e.HangUp? || e.Resume? || e.HandleClosed? {
      OthersBegin(s, l, e, op);
    }
  }

  lemma OthersBegin(s: State, l: Limits, e: Event, op: OpId)
    requires (e.Invite? || e.Accept? || e.HangUp? || e.Resume? || e.HandleClosed?) && e.op != op
    ensures op in Step(s, l, e).todo <==> op in s.todo
    ensures op in s.todo ==> Step(s, l, e).todo[op] == s.todo[op]
  {
  }

  lemma {:induction false} TodoWaits(l: Limits, events: seq<Event>, more: seq<Event>, op: OpId)
    requires forall e | e in more :: !Of(e, op)
    ensures op in Run(l, events + more).todo <==> op in Run(l, events).todo
    ensures op in Run(l, events).todo ==> Run(l, events + more).todo[op] == Run(l, events).todo[op]
  {
    if more == [] {
      assert events + more == events;
    } else {
      var init := more[..|more| - 1];
      assert events + more == (events + init) + [more[|more| - 1]];
      RunOne(l, events + init, more[|more| - 1]);
      TodoWaits(l, events, init, op);
      TodoStays(Run(l, events + init), l, more[|more| - 1], op);
    }
  }

  /** What the closing of `conn` still has to mark. */
  predicate OnlyMarks(s: State, op: OpId, conn: Conn) {
    op in s.todo ==> (s.todo[op].MarkCaller? || s.todo[op].MarkCallee?) && s.todo[op].conn == conn
  }

  lemma MarkLeaves(l: Limits, events: seq<Event>, op: OpId, conn: Conn, later: int, id: CallId)
    requires OnlyMarks(Run(l, events), op, conn)
    ensures OnlyMarks(Run(l, events + [Continue(op, later)]), op, conn)
    ensures Unbound(Run(l, events), id, conn) ==>
              id in Run(l, events + [Continue(op, later)]).rows
              && Run(l, events + [Continue(op, later)]).rows[id] == Run(l, events).rows[id]
  {
    RunOne(l, events, Continue(op, later));
    if Unbound(Run(l, events), id, conn) { MarkSkips(Run(l, events), l, op, conn, later, id); }
  }

  lemma CloseLeaves(l: Limits, events: seq<Event>, op: OpId, conn: Conn, now: int, id: CallId)
    requires op !in Run(l, events).todo
    ensures OnlyMarks(Run(l, events + [HandleClosed(op, conn, now)]), op, conn)
    ensures Unbound(Run(l, events), id, conn) ==>
              id in Run(l, events + [HandleClosed(op, conn, now)]).rows
              && Run(l, events + [HandleClosed(op, conn, now)]).rows[id] == Run(l, events).rows[id]
  {
    RunOne(l, events, HandleClosed(op, conn, now));
    if Unbound(Run(l, events), id, conn) { HandleClosedSkips(Run(l, events), op, conn, now, id); }
  }

  /** This one event does nothing to a call that `conn` is not bound to when it happens. */
  predicate Leaves(l: Limits, events: seq<Event>, e: Event, id: CallId, conn: Conn) {
    Unbound(Run(l, events), id, conn) ==>
      id in Run(l, events + [e]).rows && Run(l, events + [e]).rows[id] == Run(l, events).rows[id]
  }

  /** A connection closes, and its three updates run whenever they do, with anything in between: none of
   *  them touches a call that is bound to another connection by then. */
  lemma LateCloseIsIgnored(l: Limits, events: seq<Event>, id: CallId, op: OpId, conn: Conn,
                           now: int, a: seq<Event>, later: int, b: seq<Event>, latest: int)
    requires op !in Run(l, events).todo && forall e | e in a + b :: !Of(e, op)
    ensures var closing := events + [HandleClosed(op, conn, now)] + a;
            var marking := closing + [Continue(op, later)] + b;
            && Leaves(l, events, HandleClosed(op, conn, now), id, conn)
            && Leaves(l, closing, Continue(op, later), id, conn)
            && Leaves(l, marking, Continue(op, latest), id, conn)
  {
    var closing := events + [HandleClosed(op, conn, now)] + a;
    CloseLeaves(l, events, op, conn, now, id);
    TodoWaits(l, events + [HandleClosed(op, conn, now)], a, op);
    MarkLeaves(l, closing, op, conn, later, id);
    TodoWaits(l, closing + [Continue(op, later)], b, op);
    MarkLeaves(l, closing + [Continue(op, later)] + b, op, conn, latest, id);
  }

  /** On an active call, negotiation goes from each end to the other and nowhere else. */
  lemma PeerIsInvolution(l: Limits, events: seq<Event>, id: CallId, conn: Conn)
    requires id in Run(l, events).rows && Run(l, events).rows[id].status == Active
    ensures var c := Run(l, events).rows[id];
            && (PeerOf(c, conn).Some? <==> conn == c.callerConn || Some(conn) == c.calleeConn)
            && (PeerOf(c, conn).Some? ==> PeerOf(c, PeerOf(c, conn).value) == Some(conn) && PeerOf(c, conn) != Some(conn))
  {
    RunKeepsInv(l, events);
    assert RowOk(Run(l, events).rows[id], Run(l, events).closed, l);
  }

  // ---- what is asked for happens -------------------------------------------------------------------

  /** Asked by this user, in this status, the action ends the call for this reason: the caller cancels it and
   *  the callee declines it while it rings -- an end counts as either -- and both end it once it is answered. */
  predicate EndsBy(c: Call, user: UserId, action: Action, reason: Reason) {
    || (c.status == Ringing && c.caller == user && (action == Cancel || action == End) && reason == Cancelled)
    || (c.status == Ringing && c.callee == user && (action == Decline || (action == End && c.caller != user))
        && !c.silenced && reason == Declined)
    || (c.status == Active && (c.caller == user || c.callee == user) && action == End && reason == Completed)
  }

  lemma DecidedIffAsked(c: Call, user: UserId, action: Action, reason: Reason)
    ensures Decide(c, user, action) == Some(reason) <==> EndsBy(c, user, action, reason)
  {
  }

  /** What a handler's first stretch left to do is what its second stretch finds. */
  lemma HandlerGoesOn(l: Limits, events: seq<Event>, e: Event, op: OpId, a: seq<Event>)
    requires forall x | x in a :: !Of(x, op)
    ensures var s, t := Step(Run(l, events), l, e), Run(l, events + [e] + a);
            (op in t.todo <==> op in s.todo) && (op in s.todo ==> t.todo[op] == s.todo[op])
  {
    RunOne(l, events, e);
    TodoWaits(l, events + [e], a, op);
  }

  lemma {:induction false} RowsGoOn(l: Limits, events: seq<Event>, more: seq<Event>, id: CallId)
    requires id in Run(l, events).rows
    ensures id in Run(l, events + more).rows && Advances(Run(l, events).rows[id], Run(l, events + more).rows[id])
  {
    RunKeepsInv(l, events);
    if more == [] {
      assert events + more == events;
    } else {
      var init := more[..|more| - 1];
      assert events + more == (events + init) + [more[|more| - 1]];
      RowsGoOn(l, events, init, id);
      RunOne(l, events + init, more[|more| - 1]);
      RunKeepsInv(l, events + init);
      StepGrows(Run(l, events + init), l, more[|more| - 1]);
      StepIsBetter(Run(l, events + init), l, more[|more| - 1]);
    }
  }

  // What a handler's first stretch leaves to do, and what its second does.

  lemma HangUpLeaves(s: State, op: OpId, id: CallId, user: UserId, action: Action, reason: Reason)
    requires op !in s.todo && id in s.rows && EndsBy(s.rows[id], user, action, reason)
    ensures DoHangUp(s, op, id, user, action) == s.(todo := s.todo[op := HangUpIf(id, reason, s.rows[id].status)])
  {
    DecidedIffAsked(s.rows[id], user, action, reason);
  }

  lemma DecidedEnds(s: State, op: OpId, id: CallId, reason: Reason, from: Status, now: int)
    requires op in s.todo && s.todo[op] == HangUpIf(id, reason, from) && id in s.rows
    ensures var t := DoContinue(s, op, now);
            if s.rows[id].status == from
            then t.rows == s.rows[id := s.rows[id].(status := Ended, endReason := Some(reason), endedAt := Some(now))]
                 && t.won == s.won + multiset{id}
            else t.rows == s.rows
  {
  }

  lemma InviteLeaves(s: State, e: Event)
    requires e.Invite? && e.op !in s.todo && e.call !in s.rows && e.callee != e.conn.user && !e.silenced
    ensures var t := DoInvite(s, e);
            && e.call in t.rows && t.rows[e.call].status == Ringing && t.rows[e.call].callee == e.callee
            && e.op in t.todo && t.todo[e.op] == if e.calleeBusy then EndBusy(e.call) else TellCallee(e.call)
  {
  }

  lemma CalleeIsTold(s: State, op: OpId, id: CallId, now: int)
    requires op in s.todo && s.todo[op] == TellCallee(id) && id in s.rows
    ensures DoContinue(s, op, now).published == s.published + [Publication(ToUser(s.rows[id].callee), Incoming, id)]
  {
  }

  lemma BusyIsEnded(s: State, op: OpId, id: CallId, now: int)
    requires op in s.todo && s.todo[op] == EndBusy(id) && id in s.rows
    ensures var t := DoContinue(s, op, now);
            id in t.rows
            && t.rows[id] == if s.rows[id].status == Ringing
                             then s.rows[id].(status := Ended, endReason := Some(Busy), endedAt := Some(now)) else s.rows[id]
  {
  }

  lemma AcceptLeaves(s: State, op: OpId, id: CallId, conn: Conn, at: int)
    requires op !in s.todo && id in s.rows && s.rows[id].callee == conn.user && s.rows[id].status == Ringing && !s.rows[id].silenced
    ensures var t := DoAccept(s, op, id, conn, at);
            && t.rows == s.rows[id := s.rows[id].(status := Active, calleeConn := Some(conn), answeredAt := Some(at))]
            && op in t.todo && t.todo[op] == TellAccepted(id)
  {
  }

  lemma AcceptTells(s: State, op: OpId, id: CallId, now: int)
    requires op in s.todo && s.todo[op] == TellAccepted(id) && id in s.rows
    ensures DoContinue(s, op, now).published
            == s.published + [Publication(ToUser(s.rows[id].callee), Accepted, id), Publication(ToUser(s.rows[id].caller), Accepted, id)]
  {
  }

  /** A hang-up that fits the call it sees ends it -- whatever happens before its update, unless the call is
   *  no longer in that status by then; an answered call is over in any case. */
  lemma HangUpEnds(l: Limits, events: seq<Event>, op: OpId, id: CallId, user: UserId, action: Action, reason: Reason,
                   a: seq<Event>, now: int)
    requires op !in Run(l, events).todo && id in Run(l, events).rows && EndsBy(Run(l, events).rows[id], user, action, reason)
    requires forall e | e in a :: !Of(e, op)
    ensures var seen, before := Run(l, events).rows[id], Run(l, events + [HangUp(op, id, user, action)] + a);
            var after := Run(l, events + [HangUp(op, id, user, action)] + a + [Continue(op, now)]);
            && id in before.rows && id in after.rows
            && (before.rows[id].status == seen.status ==>
                  after.rows[id] == before.rows[id].(status := Ended, endReason := Some(reason), endedAt := Some(now))
                  && after.won == before.won + multiset{id})
            && (before.rows[id].status != seen.status ==> after.rows[id] == before.rows[id])
            && (seen.status == Active ==> after.rows[id].status == Ended)
  {
    var e := HangUp(op, id, user, action);
    HangUpLeaves(Run(l, events), op, id, user, action, reason);
    HandlerGoesOn(l, events, e, op, a);
    RowsGoOn(l, events, [e] + a, id);
    assert events + [e] + a == events + ([e] + a);
    DecidedEnds(Run(l, events + [e] + a), op, id, reason, Run(l, events).rows[id].status, now);
    RunOne(l, events + [e] + a, Continue(op, now));
  }

  /** A hang-up that does not fit asks for nothing. */
  lemma HangUpOtherwise(s: State, op: OpId, id: CallId, user: UserId, action: Action)
    requires op !in s.todo
    requires id in s.rows ==> forall reason :: !EndsBy(s.rows[id], user, action, reason)
    ensures DoHangUp(s, op, id, user, action) == s
  {
    if id in s.rows && Decide(s.rows[id], user, action).Some? {
      DecidedIffAsked(s.rows[id], user, action, Decide(s.rows[id], user, action).value);
    }
  }

  /** An invite that is neither silenced nor for somebody busy reaches its callee. */
  lemma InviteIsTold(l: Limits, events: seq<Event>, e: Event, a: seq<Event>, now: int)
    requires e.Invite? && e.op !in Run(l, events).todo && e.call !in Run(l, events).rows && e.callee != e.conn.user
    requires !e.silenced && !e.calleeBusy && forall x | x in a :: !Of(x, e.op)
    ensures Run(l, events + [e] + a + [Continue(e.op, now)]).published
            == Run(l, events + [e] + a).published + [Publication(ToUser(e.callee), Incoming, e.call)]
  {
    InviteLeaves(Run(l, events), e);
    HandlerGoesOn(l, events, e, e.op, a);
    RunOne(l, events, e);
    RowsGoOn(l, events + [e], a, e.call);
    CalleeIsTold(Run(l, events + [e] + a), e.op, e.call, now);
    RunOne(l, events + [e] + a, Continue(e.op, now));
  }

  /** One for somebody busy ends as busy, if nothing else has ended or answered it by then. */
  lemma BusyEnds(l: Limits, events: seq<Event>, e: Event, a: seq<Event>, now: int)
    requires e.Invite? && e.op !in Run(l, events).todo && e.call !in Run(l, events).rows && e.callee != e.conn.user
    requires !e.silenced && e.calleeBusy && forall x | x in a :: !Of(x, e.op)
    ensures var before, after := Run(l, events + [e] + a), Run(l, events + [e] + a + [Continue(e.op, now)]);
            && e.call in before.rows && e.call in after.rows
            && after.rows[e.call] ==
               if before.rows[e.call].status == Ringing
               then before.rows[e.call].(status := Ended, endReason := Some(Busy), endedAt := Some(now))
               else before.rows[e.call]
  {
    InviteLeaves(Run(l, events), e);
    HandlerGoesOn(l, events, e, e.op, a);
    RunOne(l, events, e);
    RowsGoOn(l, events + [e], a, e.call);
    BusyIsEnded(Run(l, events + [e] + a), e.op, e.call, now);
    RunOne(l, events + [e] + a, Continue(e.op, now));
  }

  /** The device that answers gets the call, and both users hear of it. */
  lemma AcceptIsTold(l: Limits, events: seq<Event>, op: OpId, id: CallId, conn: Conn, at: int, a: seq<Event>, now: int)
    requires op !in Run(l, events).todo && id in Run(l, events).rows
    requires var c := Run(l, events).rows[id]; c.callee == conn.user && c.status == Ringing && !c.silenced
    requires forall x | x in a :: !Of(x, op)
    ensures var c, e := Run(l, events).rows[id], Accept(op, id, conn, at);
            && id in Run(l, events + [e]).rows
            && Run(l, events + [e]).rows[id] == c.(status := Active, calleeConn := Some(conn), answeredAt := Some(at))
            && Run(l, events + [e] + a + [Continue(op, now)]).published
               == Run(l, events + [e] + a).published
                  + [Publication(ToUser(c.callee), Accepted, id), Publication(ToUser(c.caller), Accepted, id)]
  {
    var e := Accept(op, id, conn, at);
    AcceptLeaves(Run(l, events), op, id, conn, at);
    HandlerGoesOn(l, events, e, op, a);
    RunOne(l, events, e);
    RowsGoOn(l, events + [e], a, id);
    AcceptTells(Run(l, events + [e] + a), op, id, now);
    RunOne(l, events + [e] + a, Continue(op, now));
  }

  /** A resume by the caller of an answered call binds its connection, and tells it and the peer it has then. */
  lemma ResumeIsTold(l: Limits, events: seq<Event>, op: OpId, id: CallId, conn: Conn, a: seq<Event>, now: int)
    requires op !in Run(l, events).todo && id in Run(l, events).rows
    requires Run(l, events).rows[id].caller == conn.user && Run(l, events).rows[id].status == Active
    requires forall x | x in a :: !Of(x, op)
    ensures var c, e := Run(l, events).rows[id], Resume(op, id, conn);
            && id in Run(l, events + [e]).rows
            && Run(l, events + [e]).rows[id] == c.(callerConn := conn, callerGone := None)
            && Run(l, events + [e] + a + [Continue(op, now)]).published
               == Run(l, events + [e] + a).published + [Publication(ToConn(conn), Resumed, id)]
                  + (if c.calleeConn.Some? then [Publication(ToConn(c.calleeConn.value), Resumed, id)] else [])
  {
    var e := Resume(op, id, conn);
    ResumeLeaves(Run(l, events), op, id, conn);
    HandlerGoesOn(l, events, e, op, a);
    RunOne(l, events, e);
    RunOne(l, events + [e] + a, Continue(op, now));
    ResumeTells(Run(l, events + [e] + a), op, id, conn, Run(l, events).rows[id].calleeConn, now);
  }

  lemma ResumeLeaves(s: State, op: OpId, id: CallId, conn: Conn)
    requires op !in s.todo && id in s.rows && s.rows[id].caller == conn.user && s.rows[id].status == Active
    ensures var t := DoResume(s, op, id, conn);
            && t.rows == s.rows[id := s.rows[id].(callerConn := conn, callerGone := None)]
            && op in t.todo && t.todo[op] == TellResumed(id, conn, s.rows[id].calleeConn)
  {
  }

  lemma ResumeTells(s: State, op: OpId, id: CallId, conn: Conn, peer: Option<Conn>, now: int)
    requires op in s.todo && s.todo[op] == TellResumed(id, conn, peer)
    ensures DoContinue(s, op, now).published
            == s.published + [Publication(ToConn(conn), Resumed, id)]
               + (if peer.Some? then [Publication(ToConn(peer.value), Resumed, id)] else [])
  {
  }

  /** Whoever won the end of a call announces it to both its users, or to its caller only if it is silenced. */
  lemma EndIsTold(l: Limits, events: seq<Event>, id: CallId)
    requires id in Run(l, events).rows && Run(l, events).won[id] > 0
    ensures var s := Run(l, events);
            Run(l, events + [Announce(id)]).published
            == s.published + [Publication(ToUser(s.rows[id].caller), HasEnded, id)]
               + (if s.rows[id].silenced then [] else [Publication(ToUser(s.rows[id].callee), HasEnded, id)])
  {
    RunOne(l, events, Announce(id));
  }

  /** A disconnect mark names a connection that is bound now and has closed. */
  lemma MarksAreOfClosed(l: Limits, events: seq<Event>, id: CallId)
    requires id in Run(l, events).rows
    ensures var s := Run(l, events);
            var c := s.rows[id];
            && (c.callerGone.Some? ==> c.callerConn in s.closed && s.closed[c.callerConn] <= c.callerGone.value)
            && (c.calleeGone.Some? ==>
                  c.calleeConn.Some? && c.calleeConn.value in s.closed && s.closed[c.calleeConn.value] <= c.calleeGone.value)
  {
    RunKeepsInv(l, events);
    assert RowOk(Run(l, events).rows[id], Run(l, events).closed, l);
  }

  // ---- the service itself --------------------------------------------------------------------------

  lemma EndedAs(rows: Table, p: Call -> bool, reason: Reason, now: int, hit: set<CallId>, r: Table)
    requires hit <= rows.Keys && forall id | id in rows :: id in hit <==> p(rows[id])
    requires r.Keys == rows.Keys
    requires forall id | id in rows :: r[id] == if id in hit then EndRow(rows[id], reason, now) else rows[id]
    ensures r == UpdateWhere(rows, p, Ending(reason, now)) && hit == Hit(rows, p)
  {
  }

  lemma CallerMarkedAs(rows: Table, conn: Conn, at: int, r: Table)
    requires r.Keys == rows.Keys
    requires forall id | id in rows :: r[id] ==
               if rows[id].callerConn == conn && rows[id].status == Active then rows[id].(callerGone := Some(at)) else rows[id]
    ensures r == UpdateWhere(rows, ActiveFrom(conn), CallerGoneAt(at))
  {
  }

  lemma CalleeMarkedAs(rows: Table, conn: Conn, at: int, r: Table)
    requires r.Keys == rows.Keys
    requires forall id | id in rows :: r[id] ==
               if rows[id].calleeConn == Some(conn) && rows[id].status == Active then rows[id].(calleeGone := Some(at)) else rows[id]
    ensures r == UpdateWhere(rows, ActiveTo(conn), CalleeGoneAt(at))
  {
  }

  /** The `calls` table and the handlers under way. A method is one UPDATE, or one stretch of a
   *  handler between two `await`s. */
  class CallSignaling {
    const limits: Limits
    var rows: Table
    var todo: map<OpId, Todo>
    var closed: map<Conn, int>
    var won: multiset<CallId>
    var announced: seq<CallId>
    var published: seq<Publication>

    ghost function View(): State
      reads this
    {
      State(rows, todo, closed, won, announced, published)
    }

    constructor (limits: Limits)
      ensures View() == Empty && this.limits == limits
    {
      this.limits := limits;
      rows, todo, closed := map[], map[], map[];
      won, announced, published := multiset{}, [], [];
    }

    method Publish(channel: Channel, news: News, call: CallId)
      modifies this`published
      ensures published == old(published) + [Publication(channel, news, call)]
    {
      published := published + [Publication(channel, news, call)];
    }

    /** `invite` from `insertCall` on; a taken id is a retried invite. */
    method Invite(op: OpId, call: CallId, conversation: ConvId, conn: Conn, callee: UserId,
                  silenced: bool, calleeBusy: bool, now: int)
      requires op !in todo && callee != conn.user
      modifies this
      ensures View() == Step(old(View()), limits, Event.Invite(op, call, conversation, conn, callee, silenced, calleeBusy, now))
      ensures call in old(rows) ==> View() == old(View())
      ensures call !in old(rows) ==> call in rows && rows[call].status == Ringing && rows[call].callerConn == conn && rows - {call} == old(rows)
      ensures silenced ==> todo == old(todo) && published == old(published)
      ensures call !in old(rows) && !silenced && calleeBusy ==> todo == old(todo)[op := EndBusy(call)]
      ensures call !in old(rows) ==> rows[call] == Call(conversation, conn.user, callee, Ringing, None, conn, None, None, None, silenced, now, None, None)
      ensures call !in old(rows) && !silenced ==> todo == old(todo)[op := if calleeBusy then EndBusy(call) else TellCallee(call)]
      ensures (won, announced, published) == (old(won), old(announced), old(published))
    {
      if call in rows { return; }
      rows := rows[call := Call(conversation, conn.user, callee, Ringing, None, conn, None, None, None,
                                silenced, now, None, None)];
      if silenced { return; }
      if calleeBusy {
        todo := todo[op := EndBusy(call)];
      } else {
        todo := todo[op := TellCallee(call)];
      }
    }

    /** `acceptCall`; the row comes back to the one device that answered. */
    method AcceptCall(op: OpId, call: CallId, conn: Conn, now: int) returns (row: Option<Call>)
      requires op !in todo
      modifies this
      ensures View() == Step(old(View()), limits, Accept(op, call, conn, now))
      ensures row.Some? ==> call in rows && rows[call] == row.value && row.value.calleeConn == Some(conn)
      ensures row.Some? ==> old(rows)[call].status == Ringing
      ensures row.Some? <==> call in old(rows) && old(rows)[call].callee == conn.user && old(rows)[call].status == Ringing
                             && !old(rows)[call].silenced
      ensures row.None? ==> rows == old(rows)
      ensures row.Some? ==> rows == old(rows)[call := old(rows)[call].(status := Active, calleeConn := Some(conn), answeredAt := Some(now))]
      ensures todo == old(todo)[op := if row.Some? then TellAccepted(call) else TellLoser(call, conn)]
    {
      if call in rows && rows[call].callee == conn.user && rows[call].status == Ringing && !rows[call].silenced {
        rows := rows[call := rows[call].(status := Active, calleeConn := Some(conn), answeredAt := Some(now))];
        todo := todo[op := TellAccepted(call)];
        return Some(rows[call]);
      }
      todo := todo[op := TellLoser(call, conn)];
      return None;
    }

    /** `endCall`; the row comes back to the one caller that ended it. */
    method EndCall(call: CallId, reason: Reason, from: Status, now: int) returns (row: Option<Call>)
      requires from != Ended
      modifies this`rows, this`won
      ensures (rows, won) == (EndIf(old(View()), call, reason, from, now).rows, EndIf(old(View()), call, reason, from, now).won)
      ensures row.Some? <==> call in old(rows) && old(rows)[call].status == from
      ensures row.Some? ==> row == Some(rows[call]) && rows[call].status == Ended
    {
      if call in rows && rows[call].status == from {
        rows := rows[call := rows[call].(status := Ended, endReason := Some(reason), endedAt := Some(now))];
        won := won + multiset{call};
        return Some(rows[call]);
      }
      return None;
    }

    /** `hangUp` up to its read of the row. */
    method HangUp(op: OpId, call: CallId, user: UserId, action: Action)
      requires op !in todo
      modifies this
      ensures View() == Step(old(View()), limits, Event.HangUp(op, call, user, action))
      ensures rows == old(rows)
      ensures op in todo ==> todo[op].HangUpIf? && todo[op].call == call && call in rows && todo[op].from == rows[call].status != Ended
      ensures op in todo && rows[call].status == Ringing ==>
                if todo[op].reason == Cancelled then rows[call].caller == user && action != Decline
                else todo[op].reason == Declined && rows[call].callee == user && action != Cancel && !rows[call].silenced
      ensures op in todo && rows[call].status == Active ==>
                todo[op].reason == Completed && action == End && (rows[call].caller == user || rows[call].callee == user)
      ensures forall reason :: op in todo && todo[op] == HangUpIf(call, reason, rows[call].status) <==>
                call in rows && EndsBy(rows[call], user, action, reason)
      ensures todo - {op} == old(todo)
    {
      if call !in rows { return; }
      var c := rows[call];
      if c.status == Ended { return; }
      var isCaller, isCallee := c.caller == user, c.callee == user;
      if !isCaller && !isCallee { return; }
      if c.status == Ringing {
        if isCaller && action != Decline {
          todo := todo[op := HangUpIf(call, Cancelled, Ringing)];
        } else if isCallee && action != Cancel && !c.silenced {
          todo := todo[op := HangUpIf(call, Declined, Ringing)];
        }
      } else if action == End {
        todo := todo[op := HangUpIf(call, Completed, Active)];
      }
    }

    /** The UPDATE that a busy callee or a `hangUp` has decided on. */
    method EndDecided(op: OpId, now: int) returns (row: Option<Call>)
      requires op in todo && (todo[op].EndBusy? || (todo[op].HangUpIf? && todo[op].from != Ended))
      modifies this`rows, this`won, this`todo
      ensures View() == Step(old(View()), limits, Continue(op, now))
      ensures row.Some? ==> old(todo)[op].call in rows && row == Some(rows[old(todo)[op].call]) && row.value.status == Ended
      ensures var t := old(todo)[op];
              row.Some? <==> t.call in old(rows) && old(rows)[t.call].status == if t.EndBusy? then Ringing else t.from
      ensures row.None? ==> rows == old(rows) && won == old(won)
      ensures row.Some? ==> row.value.endReason == Some(if old(todo)[op].EndBusy? then Busy else old(todo)[op].reason) && row.value.endedAt == Some(now)
      ensures todo == old(todo) - {op}
    {
      var t := todo[op];
      todo := todo - {op};
      row := EndCall(t.call, if t.EndBusy? then Busy else t.reason, if t.EndBusy? then Ringing else t.from, now);
    }

    /** The publishes of `invite` and `accept`, after the row was written. */
    method Tell(op: OpId, now: int)
      requires op in todo && (todo[op].TellCallee? || todo[op].TellAccepted?) && todo[op].call in rows
      modifies this`published, this`todo
      ensures View() == Step(old(View()), limits, Continue(op, now))
      ensures var id := old(todo)[op].call;
              published == old(published) +
                if old(todo)[op].TellCallee? then [Publication(ToUser(rows[id].callee), Incoming, id)]
                else [Publication(ToUser(rows[id].callee), Accepted, id), Publication(ToUser(rows[id].caller), Accepted, id)]
      ensures todo == old(todo) - {op}
    {
      var id := todo[op].call;
      var accepted := todo[op].TellAccepted?;
      todo := todo - {op};
      if accepted {
        Publish(ToUser(rows[id].callee), Accepted, id);
        Publish(ToUser(rows[id].caller), Accepted, id);
      } else {
        Publish(ToUser(rows[id].callee), Incoming, id);
      }
    }

    /** A device that lost the race to answer learns how the call stands. */
    method TellLoserOf(op: OpId, now: int)
      requires op in todo && todo[op].TellLoser?
      modifies this`published, this`todo
      ensures View() == Step(old(View()), limits, Continue(op, now))
      ensures forall i | |old(published)| <= i < |published| :: published[i].channel == ToConn(old(todo)[op].conn)
      ensures var id, conn := old(todo)[op].call, old(todo)[op].conn;
              published == old(published) +
                if id !in rows || rows[id].callee != conn.user || rows[id].status == Ringing then []
                else [Publication(ToConn(conn), if rows[id].status == Active then Accepted else HasEnded, id)]
      ensures todo == old(todo) - {op}
    {
      var id, conn := todo[op].call, todo[op].conn;
      todo := todo - {op};
      if id !in rows || rows[id].callee != conn.user { return; }
      if rows[id].status == Active {
        Publish(ToConn(conn), Accepted, id);
      } else if rows[id].status == Ended {
        Publish(ToConn(conn), HasEnded, id);
      }
    }

    /** `resumeCall` as the caller; the UPDATE as the callee is tried next if this one misses. */
    method ResumeCall(op: OpId, call: CallId, conn: Conn) returns (row: Option<Call>)
      requires op !in todo
      modifies this`rows, this`todo
      ensures View() == Step(old(View()), limits, Resume(op, call, conn))
      ensures row.Some? <==> call in old(rows) && old(rows)[call].caller == conn.user && old(rows)[call].status == Active
      ensures row.Some? ==> call in rows && row == Some(rows[call]) && row.value.callerConn == conn && row.value.callerGone == None
      ensures row.None? ==> rows == old(rows)
      ensures row.Some? ==> rows == old(rows)[call := old(rows)[call].(callerConn := conn, callerGone := None)]
      ensures todo == old(todo)[op := if row.Some? then TellResumed(call, conn, PeerOf(row.value, conn)) else ResumeAsCallee(call, conn)]
    {
      if call in rows && rows[call].caller == conn.user && rows[call].status == Active {
        rows := rows[call := rows[call].(callerConn := conn, callerGone := None)];
        todo := todo[op := TellResumed(call, conn, PeerOf(rows[call], conn))];
        return Some(rows[call]);
      }
      todo := todo[op := ResumeAsCallee(call, conn)];
      return None;
    }

    /** `resumeCall` as the callee, after the UPDATE as the caller missed. */
    method ResumeCallee(op: OpId, now: int) returns (row: Option<Call>)
      requires op in todo && todo[op].ResumeAsCallee?
      modifies this`rows, this`todo
      ensures View() == Step(old(View()), limits, Continue(op, now))
      ensures var id, conn := old(todo)[op].call, old(todo)[op].conn;
              && (row.Some? <==> id in old(rows) && old(rows)[id].callee == conn.user && old(rows)[id].status == Active)
              && (row.Some? ==> id in rows && row == Some(rows[id]) && row.value.calleeConn == Some(conn) && row.value.calleeGone == None)
      ensures row.None? ==> rows == old(rows)
      ensures var id, conn := old(todo)[op].call, old(todo)[op].conn;
              row.Some? ==> rows == old(rows)[id := old(rows)[id].(calleeConn := Some(conn), calleeGone := None)]
      ensures var id, conn := old(todo)[op].call, old(todo)[op].conn;
              todo == old(todo)[op := if row.Some? then TellResumed(id, conn, PeerOf(row.value, conn)) else TellIfEnded(id, conn)]
    {
      var id, conn := todo[op].call, todo[op].conn;
      if id in rows && rows[id].callee == conn.user && rows[id].status == Active {
        rows := rows[id := rows[id].(calleeConn := Some(conn), calleeGone := None)];
        todo := todo[op := TellResumed(id, conn, PeerOf(rows[id], conn))];
        return Some(rows[id]);
      }
      todo := todo[op := TellIfEnded(id, conn)];
      return None;
    }

    /** The publishes of `resume`, of the row its UPDATE returned, or of one that has ended meanwhile. */
    method AnswerResume(op: OpId, now: int)
      requires op in todo && (todo[op].TellResumed? || todo[op].TellIfEnded?)
      modifies this`published, this`todo
      ensures View() == Step(old(View()), limits, Continue(op, now))
      ensures forall i | |old(published)| <= i < |published| :: published[i].channel.ToConn?
      ensures var t := old(todo)[op];
              published == old(published) +
                if t.TellResumed?
                then [Publication(ToConn(t.conn), Resumed, t.call)]
                     + (if t.peer.Some? then [Publication(ToConn(t.peer.value), Resumed, t.call)] else [])
                else if t.call in rows && rows[t.call].status == Ended then [Publication(ToConn(t.conn), HasEnded, t.call)]
                else []
      ensures todo == old(todo) - {op}
    {
      var t := todo[op];
      todo := todo - {op};
      if t.TellResumed? {
        Publish(ToConn(t.conn), Resumed, t.call);
        if t.peer.Some? { Publish(ToConn(t.peer.value), Resumed, t.call); }
      } else if t.call in rows && rows[t.call].status == Ended {
        Publish(ToConn(t.conn), HasEnded, t.call);
      }
    }

    /** `set status = 'ended' ... returning`: whoever runs this has won these rows. */
    method EndRows(hit: set<CallId>, reason: Reason, now: int)
      requires hit <= rows.Keys
      modifies this`rows, this`won
      ensures rows.Keys == old(rows.Keys) && won == old(won) + multiset(hit)
      ensures forall id | id in rows :: rows[id] == if id in hit then EndRow(old(rows)[id], reason, now) else old(rows)[id]
    {
      rows := map id | id in rows ::
        if id in hit then rows[id].(status := Ended, endReason := Some(reason), endedAt := Some(now)) else rows[id];
      won := won + multiset(hit);
    }

    /** The first UPDATE of `handleConnectionGone`: a caller's ringing call is cancelled outright. */
    method CancelRinging(op: OpId, conn: Conn, now: int) returns (cancelled: set<CallId>)
      requires op !in todo && conn in closed && closed[conn] <= now
      modifies this
      ensures View() == Step(old(View()), limits, HandleClosed(op, conn, now))
      ensures forall id | id in cancelled :: id in rows && rows[id].endReason == Some(Cancelled)
      ensures forall id | id in rows && id !in cancelled :: id in old(rows) && rows[id] == old(rows)[id]
      ensures forall id | id in rows && rows[id].callerConn == conn :: rows[id].status != Ringing
      ensures cancelled == (set id | id in old(rows) && old(rows)[id].callerConn == conn && old(rows)[id].status == Ringing)
      ensures won == old(won) + multiset(cancelled) && todo == old(todo)[op := MarkCaller(conn, now)]
    {
      cancelled := set id | id in rows && rows[id].callerConn == conn && rows[id].status == Ringing;
      EndRows(cancelled, Cancelled, now);
      EndedAs(old(rows), RingingFrom(conn), Cancelled, now, cancelled, rows);
      todo := todo[op := MarkCaller(conn, now)];
    }

    /** Its second UPDATE: an active call it placed on that socket is only marked ... */
    method MarkCallerGone(op: OpId, now: int)
      requires op in todo && todo[op].MarkCaller?
      modifies this`rows, this`todo
      ensures View() == Step(old(View()), limits, Continue(op, now))
      ensures var conn, at := old(todo)[op].conn, old(todo)[op].at;
              forall id | id in rows :: id in old(rows) && rows[id] ==
                if old(rows)[id].callerConn == conn && old(rows)[id].status == Active then old(rows)[id].(callerGone := Some(at))
                else old(rows)[id]
      ensures rows.Keys == old(rows.Keys) && todo == old(todo)[op := MarkCallee(old(todo)[op].conn, old(todo)[op].at)]
    {
      var conn, at := todo[op].conn, todo[op].at;
      rows := map id | id in rows ::
        if rows[id].callerConn == conn && rows[id].status == Active then rows[id].(callerGone := Some(at)) else rows[id];
      CallerMarkedAs(old(rows), conn, at, rows);
      todo := todo[op := MarkCallee(conn, at)];
    }

    /** ... and its third: so is one it answered there. */
    method MarkCalleeGone(op: OpId, now: int)
      requires op in todo && todo[op].MarkCallee?
      modifies this`rows, this`todo
      ensures View() == Step(old(View()), limits, Continue(op, now))
      ensures var conn, at := old(todo)[op].conn, old(todo)[op].at;
              forall id | id in rows :: id in old(rows) && rows[id] ==
                if old(rows)[id].calleeConn == Some(conn) && old(rows)[id].status == Active then old(rows)[id].(calleeGone := Some(at))
                else old(rows)[id]
      ensures rows.Keys == old(rows.Keys) && todo == old(todo) - {op}
    {
      var conn, at := todo[op].conn, todo[op].at;
      rows := map id | id in rows ::
        if rows[id].calleeConn == Some(conn) && rows[id].status == Active then rows[id].(calleeGone := Some(at)) else rows[id];
      CalleeMarkedAs(old(rows), conn, at, rows);
      todo := todo - {op};
    }

    /** `endExpiredCalls`, ringing calls first. */
    method EndUnanswered(now: int) returns (missed: set<CallId>)
      modifies this
      ensures View() == Step(old(View()), limits, SweepRinging(now))
      ensures forall id | id in rows && rows[id].status == Ringing :: now - limits.ring <= rows[id].createdAt
      ensures forall id | id in missed :: id in rows && rows[id].endReason == Some(Missed) && rows[id].endedAt == Some(now)
      ensures forall id | id in rows && id !in missed :: id in old(rows) && rows[id] == old(rows)[id]
      ensures missed == (set id | id in old(rows) && old(rows)[id].status == Ringing && old(rows)[id].createdAt < now - limits.ring)
      ensures rows.Keys == old(rows.Keys) && won == old(won) + multiset(missed)
    {
      var cutoff := now - limits.ring;
      missed := set id | id in rows && rows[id].status == Ringing && rows[id].createdAt < cutoff;
      EndRows(missed, Missed, now);
      EndedAs(old(rows), RungOutAt(now, limits), Missed, now, missed, rows);
    }

    /** ... then active calls with a participant gone too long. */
    method EndLost(now: int) returns (lost: set<CallId>)
      modifies this
      ensures View() == Step(old(View()), limits, SweepGone(now))
      ensures forall id | id in rows && rows[id].status == Active && rows[id].callerGone.Some? ::
                now - limits.grace <= rows[id].callerGone.value
      ensures forall id | id in rows && rows[id].status == Active && rows[id].calleeGone.Some? ::
                now - limits.grace <= rows[id].calleeGone.value
      ensures forall id | id in lost :: id in rows && rows[id].endReason == Some(ConnectionLost) && rows[id].endedAt == Some(now)
      ensures forall id | id in rows && id !in lost :: id in old(rows) && rows[id] == old(rows)[id]
      ensures rows.Keys == old(rows.Keys) && won == old(won) + multiset(lost)
      ensures forall id | id in lost :: id in old(rows) && old(rows)[id].status == Active && GoneTooLong(old(rows)[id], now, limits)
    {
      lost := set id | id in rows && GoneTooLong(rows[id], now, limits);
      EndRows(lost, ConnectionLost, now);
      EndedAs(old(rows), GoneTooLongAt(now, limits), ConnectionLost, now, lost, rows);
    }

    method AnnounceEnded(call: CallId)
      requires call in rows && won[call] > 0
      modifies this
      ensures View() == Step(old(View()), limits, Announce(call))
      ensures won[call] == old(won)[call] - 1 && rows == old(rows)
      ensures rows[call].silenced ==> published == old(published) + [Publication(ToUser(rows[call].caller), HasEnded, call)]
      ensures announced == old(announced) + [call]
      ensures published == old(published) + [Publication(ToUser(rows[call].caller), HasEnded, call)]
                + (if rows[call].silenced then [] else [Publication(ToUser(rows[call].callee), HasEnded, call)])
    {
      won := won - multiset{call};
      announced := announced + [call];
      Publish(ToUser(rows[call].caller), HasEnded, call);
      if !rows[call].silenced { Publish(ToUser(rows[call].callee), HasEnded, call); }
    }
  }
}

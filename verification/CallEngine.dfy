/**
 * One phone's side of a 1:1 call (apps/mobile/src/calls/CallEngine.ts): what the engine puts on the
 * socket, and when.
 *
 * The engine awaits in three places: an accept waiting for the socket, a decline waiting for the
 * socket, and a peer connection waiting for its ICE servers. Each such wait is in `waits` and ends in
 * a step of its own, so user actions, server events and other waits come in between. Whether a
 * message got out (`send` returned anything but false) is part of the event.
 */
module CallEngine {
  import opened Common

  type CallId = nat
  type WaitId = nat

  const SIGNAL_ATTEMPTS := 3

  datatype Direction = Outgoing | Incoming

  datatype Phase = Calling | Ringing | Connecting | Active | Reconnecting | Ended

  datatype Snapshot = Snapshot(call: CallId, direction: Direction, phase: Phase)

  datatype Msg = Invite | RingingMsg | Accept | Decline | Cancel | End | Resume

  /** What the outside sees of the engine, in order. */
  datatype Out =
    | Send(msg: Msg, call: CallId, ok: bool)
    | Finished(call: CallId)
    | Stats(call: CallId)

  datatype Wait =
    | Accepting(call: CallId, attempt: nat)
    | Declining(call: CallId, attemptsLeft: nat)
    | Ice

  /** `canWait`: the engine was given `waitForSignalling`. `pc`: a peer connection exists. `timer`: the
   *  reconnect timer is set. `seen` is history: every call id that was ever shown. */
  datatype State = State(
    canWait: bool,
    snap: Option<Snapshot>,
    pc: bool,
    acceptSent: bool,
    timer: bool,
    waits: map<WaitId, Wait>,
    log: seq<Out>,
    seen: set<CallId>)

  function Start(canWait: bool): State {
    State(canWait, None, false, false, false, map[], [], {})
  }

  datatype Link = Connected | Disconnected

  datatype Event =
    | StartOutgoing(call: CallId, ok: bool)
    | Present(call: CallId, announce: bool, ok: bool)
    | Answer(wait: WaitId, ok: bool)
    | Refuse(wait: WaitId, ok: bool)
    | HangUp(wait: WaitId, ok: bool)
    | Abandon
    | Dismiss
    | SocketReady(wait: WaitId, up: bool, ok: bool)
    | IceReady(wait: WaitId)
    | GotAccepted(call: CallId, here: bool, wait: WaitId)
    | GotEnded(call: CallId)
    | SocketReconnected(ok: bool)
    | LinkChanged(link: Link)
    | ReconnectTimeout(ok: bool)

  // ---- the engine's own helpers --------------------------------------------------------------------

  predicate Busy(s: State) {
    s.snap.Some? && s.snap.value.phase != Ended
  }

  /** `isCurrent`. */
  predicate Current(s: State, call: CallId) {
    Busy(s) && s.snap.value.call == call
  }

  function Log(s: State, x: Out): State {
    s.(log := s.log + [x])
  }

  function WithPhase(s: State, phase: Phase): State
    requires s.snap.Some?
  {
    s.(snap := Some(s.snap.value.(phase := phase)))
  }

  /** `finish`. */
  function FinishCall(s: State): State {
    if !Busy(s) then s
    else
      var s1 := if s.pc then Log(s, Stats(s.snap.value.call)) else s;
      WithPhase(Log(s1, Finished(s.snap.value.call)), Ended).(pc := false, timer := false)
  }

  /** `reset`, then the new call. */
  function ShowCall(s: State, call: CallId, direction: Direction): State {
    s.(snap := Some(Snapshot(call, direction, if direction == Outgoing then Calling else Ringing)),
       pc := false, timer := false, seen := s.seen + {call})
  }

  function DeclineCall(s: State, wait: WaitId, call: CallId, attemptsLeft: nat, ok: bool): State {
    var s1 := Log(s, Send(Decline, call, ok));
    if ok || !s.canWait || attemptsLeft <= 1 then s1
    else s1.(waits := s.waits[wait := Declining(call, attemptsLeft - 1)])
  }

  /** One round of the accept loop. */
  function TryAccept(s: State, wait: WaitId, call: CallId, attempt: nat, ok: bool): State {
    if !Current(s, call) then s
    else
      var s1 := Log(s, Send(Accept, call, ok));
      if ok then s1.(acceptSent := true, waits := s.waits[wait := Ice])
      else if attempt < SIGNAL_ATTEMPTS && s.canWait then s1.(waits := s.waits[wait := Accepting(call, attempt + 1)])
      else FinishCall(s1)
  }

  function DoAnswer(s: State, wait: WaitId, ok: bool): State {
    if wait in s.waits || s.snap.None? || s.snap.value.phase != Ringing then s
    else
      var s1 := WithPhase(s, Connecting).(acceptSent := false);
      if s.canWait then s1.(waits := s.waits[wait := Accepting(s.snap.value.call, 1)])
      else TryAccept(s1, wait, s.snap.value.call, 1, ok)
  }

  function DoRefuse(s: State, wait: WaitId, ok: bool): State {
    if wait in s.waits || s.snap.None? || s.snap.value.phase != Ringing then s
    else FinishCall(DeclineCall(s, wait, s.snap.value.call, SIGNAL_ATTEMPTS, ok))
  }

  function DoHangUp(s: State, wait: WaitId, ok: bool): State {
    if wait in s.waits || !Busy(s) then s
    else
      var snap := s.snap.value;
      if snap.phase == Ringing || (snap.direction == Incoming && snap.phase == Connecting && !s.acceptSent)
      then FinishCall(DeclineCall(s, wait, snap.call, SIGNAL_ATTEMPTS, ok))
      else FinishCall(Log(s, Send(if snap.phase == Calling then Cancel else End, snap.call, ok)))
  }

  function DoSocketReady(s: State, wait: WaitId, up: bool, ok: bool): State {
    if wait !in s.waits then s
    else
      var done := s.(waits := s.waits - {wait});
      match s.waits[wait]
      case Accepting(call, attempt) =>
        if up then TryAccept(done, wait, call, attempt, ok)
        else if Current(done, call) then FinishCall(done)
        else done
      case Declining(call, left) => if up then DeclineCall(done, wait, call, left, ok) else done
      case Ice => s
  }

  /** `startPeer` after its `await`: it looks only at whether there is a call and no peer yet. */
  function DoIceReady(s: State, wait: WaitId): State {
    if wait !in s.waits || !s.waits[wait].Ice? then s
    else
      var done := s.(waits := s.waits - {wait});
      if Busy(s) && !s.pc then done.(pc := true) else done
  }

  function DoAccepted(s: State, call: CallId, here: bool, wait: WaitId): State {
    if wait in s.waits || !Current(s, call) then s
    else if s.snap.value.direction == Incoming then if here then s else FinishCall(s)
    else if s.snap.value.phase == Calling then WithPhase(s, Connecting).(waits := s.waits[wait := Ice])
    else s
  }

  function DoLink(s: State, link: Link): State {
    if !s.pc || !Busy(s) then s
    else
      match link
      case Connected => WithPhase(s, Active).(timer := false)
      case Disconnected => WithPhase(s, Reconnecting).(timer := true)
  }

  function DoReconnectTimeout(s: State, ok: bool): State {
    if !s.timer || s.snap.None? || s.snap.value.phase != Reconnecting then s
    else FinishCall(Log(s, Send(End, s.snap.value.call, ok)))
  }

  function Step(s: State, e: Event): State {
    match e
    case StartOutgoing(call, ok) =>
      if Busy(s) then s else Log(ShowCall(s, call, Outgoing), Send(Invite, call, ok))
    case Present(call, announce, ok) =>
      if Busy(s) then s
      else if announce then Log(ShowCall(s, call, Incoming), Send(RingingMsg, call, ok))
      else ShowCall(s, call, Incoming)
    case Answer(wait, ok) => DoAnswer(s, wait, ok)
    case Refuse(wait, ok) => DoRefuse(s, wait, ok)
    case HangUp(wait, ok) => DoHangUp(s, wait, ok)
    case Abandon => if s.snap.Some? && s.snap.value.phase == Ringing then FinishCall(s) else s
    case Dismiss => if s.snap.Some? && s.snap.value.phase == Ended then s.(snap := None) else s
    case SocketReady(wait, up, ok) => DoSocketReady(s, wait, up, ok)
    case IceReady(wait) => DoIceReady(s, wait)
    case GotAccepted(call, here, wait) => DoAccepted(s, call, here, wait)
    case GotEnded(call) => if Current(s, call) then FinishCall(s) else s
    case SocketReconnected(ok) =>
      if s.snap.Some? && s.snap.value.phase in {Connecting, Active, Reconnecting}
      then Log(s, Send(Resume, s.snap.value.call, ok)) else s
    case LinkChanged(link) => DoLink(s, link)
    case ReconnectTimeout(ok) => DoReconnectTimeout(s, ok)
  }

  function Run(canWait: bool, events: seq<Event>): State {
    if events == [] then Start(canWait) else Step(Run(canWait, events[..|events| - 1]), events[|events| - 1])
  }

  /** The call id of an event that shows a call. */
  predicate ShowsNewCall(s: State, e: Event) {
    (e.StartOutgoing? || e.Present?) && !Busy(s) ==> e.call !in s.seen
  }

  /** No call id is shown again once its call is over (it may be announced again while it lasts). */
  predicate ShownOnce(canWait: bool, events: seq<Event>) {
    events != [] ==>
      && ShownOnce(canWait, events[..|events| - 1])
      && ShowsNewCall(Run(canWait, events[..|events| - 1]), events[|events| - 1])
  }

  // ---- what the log says of one call ---------------------------------------------------------------

  /** What can happen to a call. A message is lost when `send` says that it did not go out. */
  datatype Deed = AcceptOut | AcceptLost | DeclineOut | DeclineLost | EndOut | CallOver | StatsOut

  type Tally = multiset<Deed>

  function Count(t: Tally, x: Out): Tally {
    match x
    case Send(Accept, _, ok) => t + multiset{if ok then AcceptOut else AcceptLost}
    case Send(Decline, _, ok) => t + multiset{if ok then DeclineOut else DeclineLost}
    case Send(Cancel, _, ok) => if ok then t + multiset{EndOut} else t
    case Send(End, _, ok) => if ok then t + multiset{EndOut} else t
    case Send(_, _, _) => t
    case Finished(_) => t + multiset{CallOver}
    case Stats(_) => t + multiset{StatsOut}
  }

  /** Everything that happened to one call. */
  function TallyOf(log: seq<Out>, c: CallId): Tally {
    if log == [] then multiset{}
    else
      var x := log[|log| - 1];
      var before := TallyOf(log[..|log| - 1], c);
      if x.call == c then Count(before, x) else before
  }

  /** How many times the server heard from this phone that the call is off. */
  function Closings(t: Tally): nat {
    t[DeclineOut] + t[EndOut]
  }

  function AcceptTries(t: Tally): nat {
    t[AcceptOut] + t[AcceptLost]
  }

  function DeclineTries(t: Tally): nat {
    t[DeclineOut] + t[DeclineLost]
  }

  /** Where a call stands on this phone. */
  datatype Standing = Unseen | Live(direction: Direction, phase: Phase, acceptSent: bool) | Over

  function StandingOf(s: State, c: CallId): Standing {
    if Current(s, c) then Live(s.snap.value.direction, s.snap.value.phase, s.acceptSent)
    else if c in s.seen then Over
    else Unseen
  }

  predicate Fits(t: Tally, st: Standing) {
    && AcceptTries(t) <= SIGNAL_ATTEMPTS
    && DeclineTries(t) <= SIGNAL_ATTEMPTS
    && t[AcceptOut] <= 1
    && (t[DeclineOut] > 0 ==> t[AcceptOut] == 0)
    && match st
       case Unseen => t == multiset{}
       case Live(direction, phase, acceptSent) =>
         && t[CallOver] == 0 && t[StatsOut] == 0 && Closings(t) == 0 && DeclineTries(t) == 0
         && phase != Ended
         && (t[AcceptOut] == 1 ==> acceptSent && direction == Incoming)
         && (phase == Ringing ==> AcceptTries(t) == 0 && direction == Incoming)
         && (phase == Calling ==> direction == Outgoing)
         && (direction == Outgoing ==> AcceptTries(t) == 0)
       case Over => t[CallOver] == 1 && t[StatsOut] <= 1 && Closings(t) <= 1
  }

  /** What a wait may still do to its call. */
  predicate WaitFits(w: Wait, t: Tally, st: Standing) {
    match w
    case Accepting(_, attempt) =>
      && !st.Unseen? && 1 <= attempt <= SIGNAL_ATTEMPTS
      && t[AcceptOut] == 0 && t[AcceptLost] == attempt - 1
      && (st.Live? ==> st.direction == Incoming && st.phase != Ringing)
    case Declining(_, left) =>
      && st.Over? && 1 <= left < SIGNAL_ATTEMPTS
      && t[DeclineOut] == 0 && t[DeclineLost] == SIGNAL_ATTEMPTS - left && Closings(t) == 0 && t[AcceptOut] == 0
    case Ice => true
  }

  predicate CallOk(s: State, c: CallId) {
    Fits(TallyOf(s.log, c), StandingOf(s, c))
  }

  predicate WaitOk(s: State, w: Wait) {
    w.Ice? || WaitFits(w, TallyOf(s.log, w.call), StandingOf(s, w.call))
  }

  ghost predicate CallsOk(s: State) {
    forall c: CallId :: CallOk(s, c)
  }

  predicate WaitsOk(s: State) {
    forall i | i in s.waits :: WaitOk(s, s.waits[i])
  }

  predicate SameJob(v: Wait, w: Wait) {
    (v.Accepting? && w.Accepting? && v.call == w.call) || (v.Declining? && w.Declining? && v.call == w.call)
  }

  /** A call is being accepted, or refused, by one wait at most. */
  predicate WaitsAlone(waits: map<WaitId, Wait>) {
    forall i, j | i in waits && j in waits && SameJob(waits[i], waits[j]) :: i == j
  }

  /** Nothing is accepted that has ended. */
  predicate EndIsEnd(log: seq<Out>) {
    forall i, j | 0 <= i < j < |log| && log[i].Finished? :: log[j] != Send(Accept, log[i].call, true)
  }

  predicate SnapOk(s: State) {
    && (s.snap.Some? ==> s.snap.value.call in s.seen)
    && (s.timer ==> Busy(s) && s.snap.value.phase == Reconnecting)
    && (s.pc ==> Busy(s))
  }

  ghost predicate Inv(s: State) {
    CallsOk(s) && WaitsOk(s) && WaitsAlone(s.waits) && EndIsEnd(s.log) && SnapOk(s)
  }

  // ---- one call at a time --------------------------------------------------------------------------

  lemma TallyAfter(log: seq<Out>, x: Out, c: CallId)
    ensures TallyOf(log + [x], c) == if x.call == c then Count(TallyOf(log, c), x) else TallyOf(log, c)
  {
    assert (log + [x])[..|log|] == log;
  }

  function Concluded(t: Tally, hadPeer: bool): Tally {
    if hadPeer then t + multiset{StatsOut} + multiset{CallOver} else t + multiset{CallOver}
  }

  lemma FinishTally(s: State, c: CallId)
    requires Busy(s)
    ensures TallyOf(FinishCall(s).log, c) == if s.snap.value.call == c then Concluded(TallyOf(s.log, c), s.pc) else TallyOf(s.log, c)
  {
    var d := s.snap.value.call;
    if s.pc {
      TallyAfter(s.log, Stats(d), c);
      TallyAfter(s.log + [Stats(d)], Finished(d), c);
    } else {
      TallyAfter(s.log, Finished(d), c);
    }
  }

  lemma FinishStanding(s: State, c: CallId)
    requires Busy(s) && SnapOk(s)
    ensures StandingOf(FinishCall(s), c) == if s.snap.value.call == c then Over else StandingOf(s, c)
  {
  }

  /** Nothing changed for any call but `d`. */
  ghost predicate OthersSame(s: State, t: State, d: CallId) {
    forall c: CallId | c != d :: TallyOf(t.log, c) == TallyOf(s.log, c) && StandingOf(t, c) == StandingOf(s, c)
  }

  predicate OwnWaitsOk(t: State, d: CallId) {
    forall i | i in t.waits && !t.waits[i].Ice? && t.waits[i].call == d :: WaitOk(t, t.waits[i])
  }

  predicate WaitsFrom(waits: map<WaitId, Wait>, more: map<WaitId, Wait>, d: CallId) {
    forall i | i in more :: (i in waits && more[i] == waits[i]) || more[i].Ice? || more[i].call == d
  }

  lemma OtherCallOk(s: State, t: State, c: CallId)
    requires CallOk(s, c) && TallyOf(t.log, c) == TallyOf(s.log, c) && StandingOf(t, c) == StandingOf(s, c)
    ensures CallOk(t, c)
  {
  }

  lemma OtherWaitOk(s: State, t: State, w: Wait)
    requires !w.Ice? && WaitOk(s, w)
    requires TallyOf(t.log, w.call) == TallyOf(s.log, w.call) && StandingOf(t, w.call) == StandingOf(s, w.call)
    ensures WaitOk(t, w)
  {
  }

  lemma Assemble(s: State, t: State, d: CallId)
    requires CallsOk(s) && WaitsOk(s) && OthersSame(s, t, d) && WaitsFrom(s.waits, t.waits, d)
    requires CallOk(t, d) && OwnWaitsOk(t, d)
    ensures CallsOk(t) && WaitsOk(t)
  {
    forall c: CallId ensures CallOk(t, c) {
      if c != d { OtherCallOk(s, t, c); }
    }
    forall i | i in t.waits ensures WaitOk(t, t.waits[i]) {
      if !t.waits[i].Ice? && t.waits[i].call != d {
        OtherWaitOk(s, t, t.waits[i]);
      }
    }
  }

  lemma OthersAfterFinish(s: State)
    requires Busy(s) && SnapOk(s)
    ensures OthersSame(s, FinishCall(s), s.snap.value.call)
  {
    var d := s.snap.value.call;
    forall c: CallId | c != d
      ensures TallyOf(FinishCall(s).log, c) == TallyOf(s.log, c) && StandingOf(FinishCall(s), c) == StandingOf(s, c)
    {
      FinishTally(s, c);
      FinishStanding(s, c);
    }
  }

  lemma OthersAfterLog(s: State, x: Out)
    ensures OthersSame(s, Log(s, x), x.call)
  {
    forall c: CallId | c != x.call ensures TallyOf(Log(s, x).log, c) == TallyOf(s.log, c) {
      TallyAfter(s.log, x, c);
    }
  }

  // ---- ending a call -------------------------------------------------------------------------------

  lemma FinishKeeps(s: State)
    requires CallsOk(s) && WaitsOk(s) && SnapOk(s) && Busy(s)
    ensures CallsOk(FinishCall(s)) && WaitsOk(FinishCall(s))
  {
    var d := s.snap.value.call;
    assert CallOk(s, d);
    FinishTally(s, d);
    FinishStanding(s, d);
    OthersAfterFinish(s);
    FinishFits(TallyOf(s.log, d), StandingOf(s, d), s.pc);
    forall i | i in s.waits && !s.waits[i].Ice? && s.waits[i].call == d ensures WaitOk(FinishCall(s), s.waits[i]) {
      assert WaitOk(s, s.waits[i]);
    }
    Assemble(s, FinishCall(s), d);
  }

  lemma FinishFits(t: Tally, st: Standing, hadPeer: bool)
    requires Fits(t, st) && st.Live?
    ensures Fits(Concluded(t, hadPeer), Over)
  {
  }

  /** A refusal is possible only while nothing has been accepted. */
  predicate MayClose(s: State, msg: Msg) {
    && Busy(s)
    && (msg == Decline || msg == Cancel || msg == End)
    && (msg == Decline ==> s.snap.value.phase == Ringing || (s.snap.value.direction == Incoming && !s.acceptSent))
  }

  /** A closing message goes out, or not, and the call is over. */
  lemma CloseOwn(s: State, msg: Msg, ok: bool)
    requires CallsOk(s) && SnapOk(s) && MayClose(s, msg)
    ensures var d := s.snap.value.call;
            var t := FinishCall(Log(s, Send(msg, d, ok)));
            && CallOk(t, d) && OthersSame(s, t, d)
            && TallyOf(t.log, d) == Concluded(Count(TallyOf(s.log, d), Send(msg, d, ok)), s.pc)
            && StandingOf(t, d) == Over
  {
    var d := s.snap.value.call;
    var s1 := Log(s, Send(msg, d, ok));
    assert CallOk(s, d);
    TallyAfter(s.log, Send(msg, d, ok), d);
    FinishTally(s1, d);
    FinishStanding(s1, d);
    CloseFits(TallyOf(s.log, d), StandingOf(s, d), msg, ok, d, s.pc);
    OthersAfterLog(s, Send(msg, d, ok));
    OthersAfterFinish(s1);
  }

  lemma CloseFits(t: Tally, st: Standing, msg: Msg, ok: bool, d: CallId, hadPeer: bool)
    requires Fits(t, st) && st.Live? && (msg == Decline || msg == Cancel || msg == End)
    requires msg == Decline ==> st.phase == Ringing || (st.direction == Incoming && !st.acceptSent)
    ensures Fits(Concluded(Count(t, Send(msg, d, ok)), hadPeer), Over)
  {
  }

  lemma CloseKeeps(s: State, msg: Msg, ok: bool)
    requires CallsOk(s) && WaitsOk(s) && SnapOk(s) && MayClose(s, msg)
    ensures CallsOk(FinishCall(Log(s, Send(msg, s.snap.value.call, ok)))) && WaitsOk(FinishCall(Log(s, Send(msg, s.snap.value.call, ok))))
  {
    var d := s.snap.value.call;
    var t := FinishCall(Log(s, Send(msg, d, ok)));
    CloseOwn(s, msg, ok);
    assert CallOk(s, d);
    forall i | i in s.waits && !s.waits[i].Ice? && s.waits[i].call == d ensures WaitOk(t, s.waits[i]) {
      assert WaitOk(s, s.waits[i]);
    }
    Assemble(s, t, d);
  }

  /** A refusal, with its retry if the message did not get out. */
  lemma RefuseKeeps(s: State, wait: WaitId, ok: bool)
    requires CallsOk(s) && WaitsOk(s) && WaitsAlone(s.waits) && SnapOk(s) && MayClose(s, Decline) && wait !in s.waits
    ensures var t := FinishCall(DeclineCall(s, wait, s.snap.value.call, SIGNAL_ATTEMPTS, ok));
            CallsOk(t) && WaitsOk(t) && WaitsAlone(t.waits)
  {
    var d := s.snap.value.call;
    var t0 := FinishCall(Log(s, Send(Decline, d, ok)));
    var t := FinishCall(DeclineCall(s, wait, d, SIGNAL_ATTEMPTS, ok));
    CloseKeeps(s, Decline, ok);
    if t.waits != s.waits {
      CloseOwn(s, Decline, ok);
      assert CallOk(s, d);
      assert t == t0.(waits := s.waits[wait := Declining(d, SIGNAL_ATTEMPTS - 1)]);
      CurrentIsNotRefused(s);
      AddWait(t0, wait, Declining(d, SIGNAL_ATTEMPTS - 1));
    }
  }

  lemma CurrentIsNotRefused(s: State)
    requires WaitsOk(s) && Busy(s)
    ensures forall i | i in s.waits :: !SameJob(s.waits[i], Declining(s.snap.value.call, SIGNAL_ATTEMPTS - 1))
  {
    forall i | i in s.waits ensures !SameJob(s.waits[i], Declining(s.snap.value.call, SIGNAL_ATTEMPTS - 1)) {
      assert WaitOk(s, s.waits[i]);
    }
  }

  lemma AddWait(s: State, wait: WaitId, w: Wait)
    requires CallsOk(s) && WaitsOk(s) && WaitsAlone(s.waits) && wait !in s.waits && WaitOk(s, w)
    requires forall i | i in s.waits :: !SameJob(s.waits[i], w)
    ensures CallsOk(s.(waits := s.waits[wait := w])) && WaitsOk(s.(waits := s.waits[wait := w]))
    ensures WaitsAlone(s.waits[wait := w])
  {
    var t := s.(waits := s.waits[wait := w]);
    SameCalls(s, t);
    forall i | i in t.waits ensures WaitOk(t, t.waits[i]) {
      if i != wait {
        assert WaitOk(s, s.waits[i]);
      }
    }
  }

  /** Nothing that a call's tally or standing depends on changed. */
  lemma SameCalls(s: State, t: State)
    requires CallsOk(s) && t.log == s.log && t.seen == s.seen
    requires forall c: CallId :: StandingOf(t, c) == StandingOf(s, c)
    ensures CallsOk(t)
    ensures forall w | WaitOk(s, w) :: WaitOk(t, w)
  {
    forall c: CallId ensures CallOk(t, c) {
      assert CallOk(s, c);
    }
  }

  lemma DropWait(s: State, wait: WaitId)
    requires Inv(s)
    ensures Inv(s.(waits := s.waits - {wait}))
  {
    SameCalls(s, s.(waits := s.waits - {wait}));
  }

  // ---- a new call, a new phase ---------------------------------------------------------------------

  lemma OthersAfterShow(s: State, d: CallId, direction: Direction)
    requires !Busy(s)
    ensures OthersSame(s, ShowCall(s, d, direction), d)
  {
  }

  lemma NewFits(t: Tally, st: Standing)
    requires t == multiset{} && st.Live?
    requires (st.direction == Outgoing && st.phase == Calling) || (st.direction == Incoming && st.phase == Ringing)
    ensures Fits(t, st)
  {
  }

  lemma ShowKeeps(s: State, d: CallId, direction: Direction)
    requires CallsOk(s) && WaitsOk(s) && SnapOk(s) && !Busy(s) && d !in s.seen
    ensures CallsOk(ShowCall(s, d, direction)) && WaitsOk(ShowCall(s, d, direction))
  {
    var t := ShowCall(s, d, direction);
    assert CallOk(s, d);
    assert StandingOf(s, d) == Unseen && TallyOf(t.log, d) == multiset{};
    forall i | i in s.waits && !s.waits[i].Ice? ensures s.waits[i].call != d {
      assert WaitOk(s, s.waits[i]);
    }
    OthersAfterShow(s, d, direction);
    assert StandingOf(t, d) == Live(direction, if direction == Outgoing then Calling else Ringing, s.acceptSent);
    assert CallOk(t, d) by { NewFits(TallyOf(t.log, d), StandingOf(t, d)); }
    Assemble(s, t, d);
  }

  /** Messages that neither answer nor close a call. */
  predicate IsNote(msg: Msg) {
    msg == Invite || msg == RingingMsg || msg == Resume
  }

  lemma NoteCounts(log: seq<Out>, msg: Msg, d: CallId, ok: bool, c: CallId)
    requires IsNote(msg)
    ensures TallyOf(log + [Send(msg, d, ok)], c) == TallyOf(log, c)
  {
    TallyAfter(log, Send(msg, d, ok), c);
  }

  lemma NoteKeeps(s: State, msg: Msg, d: CallId, ok: bool)
    requires CallsOk(s) && WaitsOk(s) && IsNote(msg)
    ensures CallsOk(Log(s, Send(msg, d, ok))) && WaitsOk(Log(s, Send(msg, d, ok)))
  {
    var t := Log(s, Send(msg, d, ok));
    forall c: CallId ensures TallyOf(t.log, c) == TallyOf(s.log, c) {
      NoteCounts(s.log, msg, d, ok, c);
    }
    SameTallies(s, t);
  }

  lemma SameTallies(s: State, t: State)
    requires CallsOk(s) && WaitsOk(s) && t == s.(log := t.log)
    requires forall c: CallId :: TallyOf(t.log, c) == TallyOf(s.log, c)
    ensures CallsOk(t) && WaitsOk(t)
  {
    forall c: CallId ensures CallOk(t, c) {
      OtherCallOk(s, t, c);
    }
    forall i | i in t.waits ensures WaitOk(t, t.waits[i]) {
      if !t.waits[i].Ice? { OtherWaitOk(s, t, t.waits[i]); }
    }
  }

  /** A call that goes on, further along. */
  lemma PhaseKeeps(s: State, phase: Phase, sent: bool)
    requires CallsOk(s) && WaitsOk(s) && Busy(s) && phase in {Connecting, Active, Reconnecting}
    requires sent == s.acceptSent || (s.snap.value.phase == Ringing && !sent)
    ensures CallsOk(WithPhase(s, phase).(acceptSent := sent)) && WaitsOk(WithPhase(s, phase).(acceptSent := sent))
  {
    var d := s.snap.value.call;
    var t := WithPhase(s, phase).(acceptSent := sent);
    assert CallOk(s, d);
    assert StandingOf(t, d) == Live(s.snap.value.direction, phase, sent);
    PhaseFits(TallyOf(s.log, d), StandingOf(s, d), phase, sent);
    forall i | i in s.waits && !s.waits[i].Ice? && s.waits[i].call == d ensures WaitOk(t, s.waits[i]) {
      assert WaitOk(s, s.waits[i]);
      PhaseFitsWait(s.waits[i], TallyOf(s.log, d), StandingOf(s, d), phase, sent);
    }
    assert OthersSame(s, t, d);
    Assemble(s, t, d);
  }

  lemma PhaseFits(t: Tally, st: Standing, phase: Phase, sent: bool)
    requires Fits(t, st) && st.Live? && phase in {Connecting, Active, Reconnecting}
    requires sent == st.acceptSent || (st.phase == Ringing && !sent)
    ensures Fits(t, Live(st.direction, phase, sent))
  {
  }

  lemma PhaseFitsWait(w: Wait, t: Tally, st: Standing, phase: Phase, sent: bool)
    requires !w.Ice? && WaitFits(w, t, st) && st.Live? && phase in {Connecting, Active, Reconnecting}
    ensures WaitFits(w, t, Live(st.direction, phase, sent))
  {
  }

  // ---- answering and refusing ----------------------------------------------------------------------

  predicate NotBeing(waits: map<WaitId, Wait>, w: Wait) {
    forall i | i in waits :: !SameJob(waits[i], w)
  }

  /** An accept that got out. */
  lemma AcceptOutKeeps(s: State, d: CallId, attempt: nat)
    requires CallsOk(s) && WaitsOk(s) && Current(s, d)
    requires WaitOk(s, Accepting(d, attempt)) && NotBeing(s.waits, Accepting(d, attempt))
    ensures var t := Log(s, Send(Accept, d, true)).(acceptSent := true);
            CallsOk(t) && WaitsOk(t)
  {
    var t := Log(s, Send(Accept, d, true)).(acceptSent := true);
    assert CallOk(s, d);
    TallyAfter(s.log, Send(Accept, d, true), d);
    OthersAfterLog(s, Send(Accept, d, true));
    assert CallOk(t, d);
    forall i | i in s.waits && !s.waits[i].Ice? ensures s.waits[i].call != d {
      assert WaitOk(s, s.waits[i]);
    }
    Assemble(s, t, d);
  }

  /** An accept that did not: one try fewer is left. */
  lemma AcceptLostKeeps(s: State, d: CallId, attempt: nat)
    requires CallsOk(s) && WaitsOk(s) && Current(s, d)
    requires WaitOk(s, Accepting(d, attempt)) && NotBeing(s.waits, Accepting(d, attempt))
    ensures var t := Log(s, Send(Accept, d, false));
            CallsOk(t) && WaitsOk(t) && (attempt < SIGNAL_ATTEMPTS ==> WaitOk(t, Accepting(d, attempt + 1)))
  {
    var t := Log(s, Send(Accept, d, false));
    assert CallOk(s, d);
    TallyAfter(s.log, Send(Accept, d, false), d);
    OthersAfterLog(s, Send(Accept, d, false));
    assert CallOk(t, d);
    forall i | i in s.waits && !s.waits[i].Ice? ensures s.waits[i].call != d {
      assert WaitOk(s, s.waits[i]);
    }
    Assemble(s, t, d);
  }

  lemma TryAcceptKeeps(s: State, wait: WaitId, d: CallId, attempt: nat, ok: bool)
    requires CallsOk(s) && WaitsOk(s) && WaitsAlone(s.waits) && SnapOk(s) && wait !in s.waits
    requires WaitOk(s, Accepting(d, attempt)) && NotBeing(s.waits, Accepting(d, attempt))
    ensures var t := TryAccept(s, wait, d, attempt, ok);
            CallsOk(t) && WaitsOk(t) && WaitsAlone(t.waits)
  {
    if Current(s, d) {
      if ok {
        AcceptOutKeeps(s, d, attempt);
        AddWait(Log(s, Send(Accept, d, true)).(acceptSent := true), wait, Ice);
      } else {
        AcceptLostKeeps(s, d, attempt);
        var s1 := Log(s, Send(Accept, d, false));
        if attempt < SIGNAL_ATTEMPTS && s.canWait {
          AddWait(s1, wait, Accepting(d, attempt + 1));
        } else {
          FinishKeeps(s1);
        }
      }
    }
  }

  /** Another try at a refusal that has not got out yet. */
  lemma RetryDeclineKeeps(s: State, wait: WaitId, d: CallId, left: nat, ok: bool)
    requires CallsOk(s) && WaitsOk(s) && WaitsAlone(s.waits) && wait !in s.waits
    requires WaitOk(s, Declining(d, left)) && NotBeing(s.waits, Declining(d, left))
    ensures var t := DeclineCall(s, wait, d, left, ok);
            CallsOk(t) && WaitsOk(t) && WaitsAlone(t.waits)
  {
    var s1 := Log(s, Send(Decline, d, ok));
    assert CallOk(s, d);
    TallyAfter(s.log, Send(Decline, d, ok), d);
    OthersAfterLog(s, Send(Decline, d, ok));
    assert CallOk(s1, d);
    forall i | i in s.waits && !s.waits[i].Ice? && s.waits[i].call == d ensures WaitOk(s1, s.waits[i]) {
      assert WaitOk(s, s.waits[i]);
    }
    Assemble(s, s1, d);
    if !ok && s.canWait && left > 1 {
      AddWait(s1, wait, Declining(d, left - 1));
    }
  }

  // ---- the order of the log ------------------------------------------------------------------------

  lemma {:induction false} FinishedIsCounted(log: seq<Out>, i: nat)
    requires i < |log| && log[i].Finished?
    ensures TallyOf(log, log[i].call)[CallOver] > 0
  {
    if i < |log| - 1 {
      FinishedIsCounted(log[..|log| - 1], i);
    }
  }

  lemma EndAfter(log: seq<Out>, x: Out)
    requires EndIsEnd(log)
    requires x.Send? && x.msg == Accept && x.ok ==> TallyOf(log, x.call)[CallOver] == 0
    ensures EndIsEnd(log + [x])
  {
    var more := log + [x];
    forall i, j | 0 <= i < j < |more| && more[i].Finished? ensures more[j] != Send(Accept, more[i].call, true) {
      if j == |log| {
        FinishedIsCounted(log, i);
      }
    }
  }

  lemma FinishEnds(s: State)
    requires EndIsEnd(s.log)
    ensures EndIsEnd(FinishCall(s).log)
  {
    if Busy(s) {
      var d := s.snap.value.call;
      EndAfter(s.log, Stats(d));
      EndAfter(s.log, Finished(d));
      EndAfter(s.log + [Stats(d)], Finished(d));
    }
  }

  lemma CloseEnds(s: State, msg: Msg, d: CallId, ok: bool)
    requires EndIsEnd(s.log) && msg != Accept
    ensures EndIsEnd(FinishCall(Log(s, Send(msg, d, ok))).log)
  {
    EndAfter(s.log, Send(msg, d, ok));
    FinishEnds(Log(s, Send(msg, d, ok)));
  }

  lemma TryAcceptEnds(s: State, wait: WaitId, d: CallId, attempt: nat, ok: bool)
    requires EndIsEnd(s.log) && CallsOk(s)
    ensures EndIsEnd(TryAccept(s, wait, d, attempt, ok).log)
  {
    if Current(s, d) {
      assert CallOk(s, d);
      EndAfter(s.log, Send(Accept, d, ok));
      FinishEnds(Log(s, Send(Accept, d, ok)));
    }
  }

  // ---- every step ----------------------------------------------------------------------------------

  lemma AnswerKeepsInv(s: State, wait: WaitId, ok: bool)
    requires Inv(s)
    ensures Inv(DoAnswer(s, wait, ok))
  {
    if wait !in s.waits && s.snap.Some? && s.snap.value.phase == Ringing {
      var d := s.snap.value.call;
      var s1 := WithPhase(s, Connecting).(acceptSent := false);
      RingingIsFresh(s);
      PhaseKeeps(s, Connecting, false);
      assert s1.waits == s.waits && s1.log == s.log;
      assert WaitOk(s1, Accepting(d, 1));
      if s.canWait {
        AddWait(s1, wait, Accepting(d, 1));
      } else {
        TryAcceptKeeps(s1, wait, d, 1, ok);
        TryAcceptEnds(s1, wait, d, 1, ok);
      }
    }
  }

  /** A ringing call has not been answered yet, and nothing is answering it. */
  lemma RingingIsFresh(s: State)
    requires CallsOk(s) && WaitsOk(s) && s.snap.Some? && s.snap.value.phase == Ringing
    ensures var d := s.snap.value.call;
            && AcceptTries(TallyOf(s.log, d)) == 0 && s.snap.value.direction == Incoming
            && NotBeing(s.waits, Accepting(d, 1))
  {
    assert CallOk(s, s.snap.value.call);
    forall i | i in s.waits ensures !SameJob(s.waits[i], Accepting(s.snap.value.call, 1)) {
      assert WaitOk(s, s.waits[i]);
    }
  }

  lemma RefuseKeepsInv(s: State, wait: WaitId, ok: bool)
    requires Inv(s) && wait !in s.waits && MayClose(s, Decline)
    ensures Inv(FinishCall(DeclineCall(s, wait, s.snap.value.call, SIGNAL_ATTEMPTS, ok)))
  {
    RefuseKeeps(s, wait, ok);
    CloseEnds(s, Decline, s.snap.value.call, ok);
  }

  lemma CloseKeepsInv(s: State, msg: Msg, ok: bool)
    requires Inv(s) && MayClose(s, msg)
    ensures Inv(FinishCall(Log(s, Send(msg, s.snap.value.call, ok))))
  {
    CloseKeeps(s, msg, ok);
    CloseEnds(s, msg, s.snap.value.call, ok);
  }

  lemma FinishKeepsInv(s: State)
    requires Inv(s)
    ensures Inv(FinishCall(s))
  {
    if Busy(s) {
      FinishKeeps(s);
      FinishEnds(s);
    }
  }

  lemma SocketReadyKeepsInv(s: State, wait: WaitId, up: bool, ok: bool)
    requires Inv(s)
    ensures Inv(DoSocketReady(s, wait, up, ok))
  {
    if wait in s.waits && !s.waits[wait].Ice? {
      var done := s.(waits := s.waits - {wait});
      DropWait(s, wait);
      var w := s.waits[wait];
      assert WaitOk(done, w) by { OtherWaitOk(s, done, w); }
      assert NotBeing(done.waits, w);
      match w
      case Accepting(d, attempt) =>
        if up {
          TryAcceptKeeps(done, wait, d, attempt, ok);
          TryAcceptEnds(done, wait, d, attempt, ok);
        } else {
          FinishKeepsInv(done);
        }
      case Declining(d, left) =>
        if up {
          RetryDeclineKeeps(done, wait, d, left, ok);
          EndAfter(done.log, Send(Decline, d, ok));
        }
      case Ice => {}
    }
  }

  lemma GoOnKeepsInv(s: State, phase: Phase, timer: bool, waits: map<WaitId, Wait>)
    requires Inv(s) && Busy(s) && phase in {Connecting, Active, Reconnecting} && (timer ==> phase == Reconnecting)
    requires WaitsAlone(waits) && forall i | i in waits :: waits[i].Ice? || (i in s.waits && waits[i] == s.waits[i])
    ensures Inv(WithPhase(s, phase).(timer := timer, waits := waits))
  {
    PhaseKeeps(s, phase, s.acceptSent);
    SameCalls(WithPhase(s, phase), WithPhase(s, phase).(timer := timer, waits := waits));
  }

  lemma ShowKeepsInv(s: State, d: CallId, direction: Direction, msg: Msg, ok: bool)
    requires Inv(s) && !Busy(s) && d !in s.seen && IsNote(msg)
    ensures Inv(ShowCall(s, d, direction)) && Inv(Log(ShowCall(s, d, direction), Send(msg, d, ok)))
  {
    ShowKeeps(s, d, direction);
    NoteKeeps(ShowCall(s, d, direction), msg, d, ok);
    EndAfter(s.log, Send(msg, d, ok));
  }

  lemma ScreenKeepsInv(s: State, e: Event)
    requires Inv(s) && (e.Abandon? || e.Dismiss? || e.GotEnded? || e.IceReady?)
    ensures Inv(Step(s, e))
  {
    match e
    case Abandon => FinishKeepsInv(s);
    case Dismiss => if Step(s, e) != s { SameCalls(s, Step(s, e)); }
    case IceReady(wait) => if Step(s, e) != s { DropWait(s, wait); SameCalls(s, Step(s, e)); }
    case GotEnded(d) => FinishKeepsInv(s);
  }

  lemma LinkKeepsInv(s: State, e: Event)
    requires Inv(s) && (e.SocketReconnected? || e.LinkChanged? || e.ReconnectTimeout?)
    ensures Inv(Step(s, e))
  {
    match e
    case SocketReconnected(ok) =>
      if Step(s, e) != s {
        NoteKeeps(s, Resume, s.snap.value.call, ok);
        EndAfter(s.log, Send(Resume, s.snap.value.call, ok));
      }
    case LinkChanged(link) =>
      if s.pc && Busy(s) {
        GoOnKeepsInv(s, if link == Connected then Active else Reconnecting, link == Disconnected, s.waits);
      }
    case ReconnectTimeout(ok) => if Step(s, e) != s { CloseKeepsInv(s, End, ok); }
  }

  lemma NewCallKeepsInv(s: State, e: Event)
    requires Inv(s) && ShowsNewCall(s, e) && (e.StartOutgoing? || e.Present?)
    ensures Inv(Step(s, e))
  {
    if !Busy(s) {
      ShowKeepsInv(s, e.call, if e.StartOutgoing? then Outgoing else Incoming, if e.StartOutgoing? then Invite else RingingMsg, e.ok);
    }
  }

  lemma UserKeepsInv(s: State, e: Event)
    requires Inv(s) && (e.Answer? || e.Refuse? || e.HangUp?)
    ensures Inv(Step(s, e))
  {
    match e
    case Answer(wait, ok) => AnswerKeepsInv(s, wait, ok);
    case Refuse(wait, ok) => if Step(s, e) != s { RefuseKeepsInv(s, wait, ok); }
    case HangUp(wait, ok) => HangUpKeepsInv(s, wait, ok);
  }

  lemma StepKeepsInv(s: State, e: Event)
    requires Inv(s) && ShowsNewCall(s, e)
    ensures Inv(Step(s, e))
  {
    if e.StartOutgoing? || e.Present? {
      NewCallKeepsInv(s, e);
    } else if e.Answer? || e.Refuse? || e.HangUp? {
      UserKeepsInv(s, e);
    } else if e.SocketReady? {
      SocketReadyKeepsInv(s, e.wait, e.up, e.ok);
    } else if e.GotAccepted? {
      AcceptedKeepsInv(s, e.call, e.here, e.wait);
    } else if e.Abandon? || e.Dismiss? || e.GotEnded? || e.IceReady? {
      ScreenKeepsInv(s, e);
    } else {
      LinkKeepsInv(s, e);
    }
  }

  lemma HangUpKeepsInv(s: State, wait: WaitId, ok: bool)
    requires Inv(s)
    ensures Inv(DoHangUp(s, wait, ok))
  {
    if wait !in s.waits && Busy(s) {
      if MayClose(s, Decline) && DoHangUp(s, wait, ok) == FinishCall(DeclineCall(s, wait, s.snap.value.call, SIGNAL_ATTEMPTS, ok)) {
        RefuseKeepsInv(s, wait, ok);
      } else {
        CloseKeepsInv(s, if s.snap.value.phase == Calling then Cancel else End, ok);
      }
    }
  }

  lemma AcceptedKeepsInv(s: State, d: CallId, here: bool, wait: WaitId)
    requires Inv(s)
    ensures Inv(DoAccepted(s, d, here, wait))
  {
    if wait !in s.waits && Current(s, d) {
      if s.snap.value.direction == Incoming {
        FinishKeepsInv(s);
      } else if s.snap.value.phase == Calling {
        GoOnKeepsInv(s, Connecting, false, s.waits[wait := Ice]);
      }
    }
  }

  lemma {:induction false} RunKeepsInv(canWait: bool, events: seq<Event>)
    requires ShownOnce(canWait, events)
    ensures Inv(Run(canWait, events))
  {
    if events != [] {
      RunKeepsInv(canWait, events[..|events| - 1]);
      StepKeepsInv(Run(canWait, events[..|events| - 1]), events[|events| - 1]);
    }
  }

  // ---- what holds over every run -------------------------------------------------------------------

  /** Every call this phone showed is either the current one, with nothing said yet that would end it,
   *  or over, reported as over exactly once, with its stats at most once. At most one decline, cancel or
   *  end got out for it, never an accept and a decline, and no more than three tries were made at either. */
  lemma OneWayOut(canWait: bool, events: seq<Event>, c: CallId)
    requires ShownOnce(canWait, events)
    ensures var s := Run(canWait, events);
            var t := TallyOf(s.log, c);
            && Closings(t) <= 1 && t[AcceptOut] <= 1 && t[StatsOut] <= 1
            && (t[DeclineOut] == 0 || t[AcceptOut] == 0)
            && AcceptTries(t) <= SIGNAL_ATTEMPTS && DeclineTries(t) <= SIGNAL_ATTEMPTS
            && (Current(s, c) ==> t[CallOver] == 0 && t[StatsOut] == 0 && Closings(t) == 0)
            && (c in s.seen && !Current(s, c) ==> t[CallOver] == 1)
  {
    RunKeepsInv(canWait, events);
    assert CallOk(Run(canWait, events), c);
  }

  /** A refusal still to be retried belongs to a call that is over and for which nothing else got out;
   *  the call has no second retry. So retries cannot add up to a second message. */
  lemma PendingRefusalIsTheOnlyOne(canWait: bool, events: seq<Event>, i: WaitId)
    requires ShownOnce(canWait, events)
    requires i in Run(canWait, events).waits && Run(canWait, events).waits[i].Declining?
    ensures var s := Run(canWait, events);
            var c := s.waits[i].call;
            && !Current(s, c)
            && Closings(TallyOf(s.log, c)) == 0 && TallyOf(s.log, c)[AcceptOut] == 0
            && (forall j | j in s.waits && s.waits[j].Declining? && s.waits[j].call == c :: j == i)
  {
    RunKeepsInv(canWait, events);
    var s := Run(canWait, events);
    assert WaitOk(s, s.waits[i]);
    forall j | j in s.waits && s.waits[j].Declining? && s.waits[j].call == s.waits[i].call ensures j == i {
      assert SameJob(s.waits[i], s.waits[j]);
    }
  }

  /** After a call is over on this phone, no accept for it goes out any more. */
  lemma NoAcceptAfterTheEnd(canWait: bool, events: seq<Event>, i: nat, j: nat)
    requires ShownOnce(canWait, events)
    requires i < j < |Run(canWait, events).log| && Run(canWait, events).log[i].Finished?
    ensures Run(canWait, events).log[j] != Send(Accept, Run(canWait, events).log[i].call, true)
  {
    RunKeepsInv(canWait, events);
  }

  /** The reconnect timer runs only while the current call is reconnecting, and a peer connection exists
   *  only while a call is in progress. */
  lemma NothingOutlivesTheCall(canWait: bool, events: seq<Event>)
    requires ShownOnce(canWait, events)
    ensures var s := Run(canWait, events);
            && (s.timer ==> Busy(s) && s.snap.value.phase == Reconnecting)
            && (s.pc ==> Busy(s))
  {
    RunKeepsInv(canWait, events);
  }

  lemma RunOne(canWait: bool, events: seq<Event>, e: Event)
    ensures Run(canWait, events + [e]) == Step(Run(canWait, events), e)
    ensures ShownOnce(canWait, events + [e]) <==> ShownOnce(canWait, events) && ShowsNewCall(Run(canWait, events), e)
  {
    assert (events + [e])[..|events|] == events;
  }

  /** A call is shown, and refused. */
  lemma RefusedOnce(c: CallId) returns (events: seq<Event>)
    ensures var s := Run(false, events);
            && s.log == [Send(Decline, c, true), Finished(c)] && s.waits == map[] && !s.canWait && !Busy(s)
  {
    var e0, e1 := Present(c, false, true), Refuse(0, true);
    RunOne(false, [], e0);
    RunOne(false, [] + [e0], e1);
    events := [] + [e0] + [e1];
  }

  /** That no call is shown twice is needed: shown again, a refused call can be answered. */
  lemma ShownAgainCanBeAnswered(c: CallId) returns (events: seq<Event>)
    ensures Run(false, events).log == [Send(Decline, c, true), Finished(c), Send(Accept, c, true)]
  {
    var before := RefusedOnce(c);
    var e2, e3 := Present(c, false, true), Answer(1, true);
    RunOne(false, before, e2);
    RunOne(false, before + [e2], e3);
    events := before + [e2] + [e3];
  }

  /** An answered call has ended, and its ICE servers are still to come. */
  predicate IceToCome(s: State, c: CallId) {
    s.snap == Some(Snapshot(c, Incoming, Ended)) && !s.pc && s.waits == map[0 := Ice] && s.seen == {c}
  }

  /** A call is shown, and answered without delay. */
  predicate JustAnswered(s: State, c: CallId) {
    s.snap == Some(Snapshot(c, Incoming, Connecting)) && !s.pc && s.waits == map[0 := Ice] && s.seen == {c}
  }

  lemma RingingOnce(c: CallId)
    ensures var s := Run(false, [Present(c, false, true)]);
            ShownOnce(false, [Present(c, false, true)]) && s == ShowCall(Start(false), c, Incoming)
  {
    RunOne(false, [], Present(c, false, true));
    assert [] + [Present(c, false, true)] == [Present(c, false, true)];
  }

  lemma AnsweredOnce(c: CallId)
    ensures var events := [Present(c, false, true)] + [Answer(0, true)];
            ShownOnce(false, events) && JustAnswered(Run(false, events), c)
  {
    RingingOnce(c);
    RunOne(false, [Present(c, false, true)], Answer(0, true));
  }

  lemma EndedWhileIceComes(c: CallId) returns (events: seq<Event>)
    ensures ShownOnce(false, events) && IceToCome(Run(false, events), c)
  {
    var before := [Present(c, false, true)] + [Answer(0, true)];
    AnsweredOnce(c);
    RunOne(false, before, GotEnded(c));
    events := before + [GotEnded(c)];
  }

  /** A peer connection can be opened for a call nobody has answered: the ICE servers of an answered
   *  call that ended in the meantime arrive when the next one is ringing. */
  lemma LateIceOpensNextCall(c: CallId, d: CallId) returns (events: seq<Event>)
    requires c != d
    ensures ShownOnce(false, events)
    ensures Current(Run(false, events), d) && Run(false, events).snap.value.phase == Ringing && Run(false, events).pc
  {
    var before := EndedWhileIceComes(c);
    var e3, e4 := Present(d, false, true), IceReady(0);
    RunOne(false, before, e3);
    RunOne(false, before + [e3], e4);
    events := before + [e3] + [e4];
  }

  // ---- what is sent, and why -----------------------------------------------------------------------

  /** What hanging up says, by how far the call has got on this phone. */
  function HangUpMsg(snap: Snapshot, acceptSent: bool): Msg {
    match snap.phase
    case Ringing => Decline
    case Calling => Cancel
    case Connecting => if snap.direction == Incoming && !acceptSent then Decline else End
    case _ => End
  }

  /** What the end of the current call reports. */
  function EndingOf(s: State): seq<Out>
    requires s.snap.Some?
  {
    (if s.pc then [Stats(s.snap.value.call)] else []) + [Finished(s.snap.value.call)]
  }

  lemma FinishLogs(s: State)
    requires Busy(s)
    ensures FinishCall(s).log == s.log + EndingOf(s)
  {
    var c := s.snap.value.call;
    if s.pc { assert s.log + [Stats(c)] + [Finished(c)] == s.log + ([Stats(c)] + [Finished(c)]); }
  }

  lemma CloseLogs(s: State, msg: Msg, ok: bool)
    requires Busy(s)
    ensures var x := Send(msg, s.snap.value.call, ok);
            FinishCall(Log(s, x)).log == s.log + ([x] + EndingOf(s))
  {
    var x := Send(msg, s.snap.value.call, ok);
    FinishLogs(Log(s, x));
    assert s.log + [x] + EndingOf(s) == s.log + ([x] + EndingOf(s));
  }

  lemma RefuseLogs(s: State, wait: WaitId, ok: bool)
    requires Busy(s)
    ensures var x := Send(Decline, s.snap.value.call, ok);
            FinishCall(DeclineCall(s, wait, s.snap.value.call, SIGNAL_ATTEMPTS, ok)).log == s.log + ([x] + EndingOf(s))
  {
    var x := Send(Decline, s.snap.value.call, ok);
    FinishLogs(DeclineCall(s, wait, s.snap.value.call, SIGNAL_ATTEMPTS, ok));
    assert s.log + [x] + EndingOf(s) == s.log + ([x] + EndingOf(s));
  }

  /** Hanging up says the one thing that fits, and ends the call. */
  lemma HangUpSays(s: State, wait: WaitId, ok: bool)
    requires Busy(s) && wait !in s.waits
    ensures var snap := s.snap.value;
            DoHangUp(s, wait, ok).log == s.log + ([Send(HangUpMsg(snap, s.acceptSent), snap.call, ok)] + EndingOf(s))
    ensures !Busy(DoHangUp(s, wait, ok))
  {
    RefuseLogs(s, wait, ok);
    CloseLogs(s, HangUpMsg(s.snap.value, s.acceptSent), ok);
  }

  predicate Awaited(s: State, e: Event, c: CallId, refusal: bool) {
    e.SocketReady? && e.up && e.wait in s.waits && !s.waits[e.wait].Ice? && s.waits[e.wait].call == c
    && s.waits[e.wait].Declining? == refusal
  }

  /** Why a message goes out, or is tried, or the end of a call is reported. */
  predicate Grounds(s: State, e: Event, x: Out) {
    match x
    case Send(Invite, c, ok) => e == StartOutgoing(c, ok) && !Busy(s)
    case Send(RingingMsg, c, ok) => e == Present(c, true, ok) && !Busy(s)
    case Send(Accept, c, ok) =>
      Current(s, c) && ((e.Answer? && s.snap.value.phase == Ringing && e.ok == ok) || (Awaited(s, e, c, false) && e.ok == ok))
    case Send(Decline, c, ok) =>
      || (Current(s, c) && ((e.Refuse? && s.snap.value.phase == Ringing && e.ok == ok)
                            || (e.HangUp? && HangUpMsg(s.snap.value, s.acceptSent) == Decline && e.ok == ok)))
      || (Awaited(s, e, c, true) && e.ok == ok)
    case Send(Cancel, c, ok) => Current(s, c) && e.HangUp? && s.snap.value.phase == Calling && e.ok == ok
    case Send(End, c, ok) =>
      Current(s, c) && ((e.HangUp? && HangUpMsg(s.snap.value, s.acceptSent) == End && e.ok == ok)
                        || (e == ReconnectTimeout(ok) && s.snap.value.phase == Reconnecting))
    case Send(Resume, c, ok) =>
      Current(s, c) && e == SocketReconnected(ok) && s.snap.value.phase in {Connecting, Active, Reconnecting}
    case Finished(c) => Current(s, c)
    case Stats(c) => Current(s, c) && s.pc
  }

  ghost predicate Grounded(s: State, e: Event, more: seq<Out>) {
    Step(s, e).log == s.log + more && forall x | x in more :: Grounds(s, e, x)
  }

  /** Everything an event puts in the log has its ground. */
  ghost predicate HasGrounds(s: State, e: Event) {
    exists more :: Grounded(s, e, more)
  }

  lemma EndingIsGrounded(s: State, e: Event)
    requires Busy(s)
    ensures forall x | x in EndingOf(s) :: Grounds(s, e, x)
  {
  }

  lemma FinishHasGrounds(s: State, e: Event)
    requires Step(s, e).log == FinishCall(s).log
    ensures HasGrounds(s, e)
  {
    if Busy(s) {
      FinishLogs(s);
      EndingIsGrounded(s, e);
      assert Grounded(s, e, EndingOf(s));
    } else {
      assert Grounded(s, e, []);
    }
  }

  lemma UserHasGrounds(s: State, e: Event)
    requires e.Refuse? || e.HangUp?
    ensures HasGrounds(s, e)
  {
    if e.wait in s.waits || !Busy(s) || (e.Refuse? && s.snap.value.phase != Ringing) {
      assert Grounded(s, e, []);
    } else {
      var snap := s.snap.value;
      var msg := if e.Refuse? then Decline else HangUpMsg(snap, s.acceptSent);
      RefuseLogs(s, e.wait, e.ok);
      CloseLogs(s, msg, e.ok);
      EndingIsGrounded(s, e);
      assert Grounded(s, e, [Send(msg, snap.call, e.ok)] + EndingOf(s));
    }
  }

  lemma TryLogs(s: State, wait: WaitId, c: CallId, attempt: nat, ok: bool) returns (more: seq<Out>)
    requires Current(s, c)
    ensures TryAccept(s, wait, c, attempt, ok).log == s.log + more
    ensures forall x | x in more :: x == Send(Accept, c, ok) || x in EndingOf(s)
  {
    var x := Send(Accept, c, ok);
    CloseLogs(s, Accept, ok);
    more := if TryAccept(s, wait, c, attempt, ok).log == s.log + [x] then [x] else [x] + EndingOf(s);
  }

  lemma AnswerHasGrounds(s: State, e: Event)
    requires e.Answer?
    ensures HasGrounds(s, e)
  {
    if e.wait in s.waits || s.snap.None? || s.snap.value.phase != Ringing || s.canWait {
      assert Grounded(s, e, []);
    } else {
      var s1 := WithPhase(s, Connecting).(acceptSent := false);
      var more := TryLogs(s1, e.wait, s.snap.value.call, 1, e.ok);
      assert EndingOf(s1) == EndingOf(s);
      assert Grounded(s, e, more);
    }
  }

  lemma SocketHasGrounds(s: State, e: Event)
    requires e.SocketReady?
    ensures HasGrounds(s, e)
  {
    if e.wait !in s.waits || s.waits[e.wait].Ice? {
      assert Grounded(s, e, []);
    } else if s.waits[e.wait].Declining? {
      assert Grounded(s, e, if e.up then [Send(Decline, s.waits[e.wait].call, e.ok)] else []);
    } else {
      AcceptWaitHasGrounds(s, e);
    }
  }

  lemma AcceptWaitHasGrounds(s: State, e: Event)
    requires e.SocketReady? && e.wait in s.waits && s.waits[e.wait].Accepting?
    ensures HasGrounds(s, e)
  {
    var done, d := s.(waits := s.waits - {e.wait}), s.waits[e.wait].call;
    if !Current(s, d) {
      assert Grounded(s, e, []);
    } else if e.up {
      var more := TryLogs(done, e.wait, d, s.waits[e.wait].attempt, e.ok);
      assert EndingOf(done) == EndingOf(s);
      assert Grounded(s, e, more);
    } else {
      FinishLogs(done);
      assert Grounded(s, e, EndingOf(s));
    }
  }

  lemma LinkHasGrounds(s: State, e: Event)
    requires e.SocketReconnected? || e.LinkChanged? || e.ReconnectTimeout?
    ensures HasGrounds(s, e)
  {
    if Step(s, e).log == s.log {
      assert Grounded(s, e, []);
    } else if e.SocketReconnected? {
      assert Grounded(s, e, [Send(Resume, s.snap.value.call, e.ok)]);
    } else {
      CloseLogs(s, End, e.ok);
      assert Grounded(s, e, [Send(End, s.snap.value.call, e.ok)] + EndingOf(s));
    }
  }

  lemma StepHasGrounds(s: State, e: Event)
    ensures HasGrounds(s, e)
  {
    if e.Answer? {
      AnswerHasGrounds(s, e);
    } else if e.Refuse? || e.HangUp? {
      UserHasGrounds(s, e);
    } else if e.SocketReady? {
      SocketHasGrounds(s, e);
    } else if e.SocketReconnected? || e.LinkChanged? || e.ReconnectTimeout? {
      LinkHasGrounds(s, e);
    } else if e.StartOutgoing? || e.Present? {
      ShowHasGrounds(s, e);
    } else if Step(s, e).log == s.log {
      assert Grounded(s, e, []);
    } else {
      FinishHasGrounds(s, e);
    }
  }

  lemma ShowHasGrounds(s: State, e: Event)
    requires e.StartOutgoing? || e.Present?
    ensures HasGrounds(s, e)
  {
    if Busy(s) || (e.Present? && !e.announce) {
      assert Grounded(s, e, []);
    } else {
      assert Grounded(s, e, [Send(if e.StartOutgoing? then Invite else RingingMsg, e.call, e.ok)]);
    }
  }

  /** Over every run: whatever is in the log was put there by an event, in a state that gave it its ground. */
  lemma {:induction false} SentWithGrounds(canWait: bool, events: seq<Event>, x: Out) returns (k: nat)
    requires x in Run(canWait, events).log
    ensures k < |events| && Grounds(Run(canWait, events[..k]), events[k], x)
  {
    var init := events[..|events| - 1];
    var s, e := Run(canWait, init), events[|events| - 1];
    if x in s.log {
      k := SentWithGrounds(canWait, init, x);
      assert init[..k] == events[..k];
    } else {
      StepHasGrounds(s, e);
      var more :| Grounded(s, e, more);
      k := |events| - 1;
    }
  }

  // ---- cancelled, or ended -------------------------------------------------------------------------

  /** The phone hears that its outgoing call was answered. */
  predicate HearsAnswer(s: State, e: Event, c: CallId) {
    e.GotAccepted? && e.call == c && e.wait !in s.waits && Current(s, c) && s.snap.value.direction == Outgoing
  }

  predicate Heard(canWait: bool, events: seq<Event>, c: CallId) {
    events != [] && (
      || Heard(canWait, events[..|events| - 1], c)
      || HearsAnswer(Run(canWait, events[..|events| - 1]), events[|events| - 1], c))
  }

  /** It has answered the call itself. */
  predicate Said(s: State, c: CallId) {
    Send(Accept, c, true) in s.log
  }

  predicate OpensPeer(s: State, e: Event, c: CallId) {
    Current(s, c) && !s.pc && e.IceReady? && e.wait in s.waits && s.waits[e.wait].Ice?
  }

  /** ICE servers that another call had asked for opened a peer for it before that. */
  predicate OpenedEarly(canWait: bool, events: seq<Event>, c: CallId) {
    events != [] &&
      var init := events[..|events| - 1];
      || OpenedEarly(canWait, init, c)
      || (OpensPeer(Run(canWait, init), events[|events| - 1], c) && !Heard(canWait, init, c) && !Said(Run(canWait, init), c))
  }

  /** How far a call can have got without having been answered. */
  predicate PhaseFitsAnswer(s: State, c: CallId, heard: bool, early: bool) {
    && (heard || early || Current(s, c) ==> c in s.seen)
    && (Current(s, c) ==>
          var snap := s.snap.value;
          var answered := heard || early || Said(s, c);
          && (s.pc || snap.phase == Active || snap.phase == Reconnecting ==> answered)
          && (snap.phase == Calling ==> !heard && snap.direction == Outgoing)
          && (snap.phase == Ringing ==> snap.direction == Incoming)
          && (snap.phase == Connecting && snap.direction == Outgoing ==> heard)
          && (snap.phase == Connecting && snap.direction == Incoming && s.acceptSent ==> Said(s, c)))
  }

  lemma StillSaid(s: State, e: Event, c: CallId)
    ensures Said(s, c) ==> Said(Step(s, e), c)
  {
    StepHasGrounds(s, e);
    var more :| Grounded(s, e, more);
  }

  lemma TryFitsAnswer(s: State, wait: WaitId, d: CallId, attempt: nat, ok: bool, c: CallId, heard: bool, early: bool)
    requires PhaseFitsAnswer(s, c, heard, early) && Current(s, d)
    ensures PhaseFitsAnswer(TryAccept(s, wait, d, attempt, ok), c, heard, early)
  {
    var x := Send(Accept, d, ok);
    assert x in Log(s, x).log && forall y | y in s.log :: y in Log(s, x).log;
    FinishGrowsLog(Log(s, x));
  }

  lemma FinishGrowsLog(s: State)
    ensures forall y | y in s.log :: y in FinishCall(s).log
  {
    if Busy(s) { FinishLogs(s); }
  }

  lemma AnswerFitsAnswer(s: State, e: Event, c: CallId, heard: bool, early: bool)
    requires PhaseFitsAnswer(s, c, heard, early) && e.Answer?
    ensures PhaseFitsAnswer(Step(s, e), c, heard, early)
  {
    if Step(s, e) != s && !s.canWait {
      TryFitsAnswer(WithPhase(s, Connecting).(acceptSent := false), e.wait, s.snap.value.call, 1, e.ok, c, heard, early);
    }
  }

  lemma AcceptWaitFitsAnswer(s: State, e: Event, c: CallId, heard: bool, early: bool)
    requires PhaseFitsAnswer(s, c, heard, early) && e.SocketReady? && e.wait in s.waits && s.waits[e.wait].Accepting?
    ensures PhaseFitsAnswer(Step(s, e), c, heard, early)
  {
    var done, d := s.(waits := s.waits - {e.wait}), s.waits[e.wait].call;
    if e.up {
      if Current(s, d) { TryFitsAnswer(done, e.wait, d, s.waits[e.wait].attempt, e.ok, c, heard, early); }
    } else {
      FinishGrowsLog(done);
    }
  }

  lemma RefusalFitsAnswer(s: State, e: Event, c: CallId, heard: bool, early: bool)
    requires PhaseFitsAnswer(s, c, heard, early) && e.SocketReady? && (e.wait in s.waits ==> !s.waits[e.wait].Accepting?)
    ensures PhaseFitsAnswer(Step(s, e), c, heard, early)
  {
    StillSaid(s, e, c);
  }

  lemma SocketFitsAnswer(s: State, e: Event, c: CallId, heard: bool, early: bool)
    requires PhaseFitsAnswer(s, c, heard, early) && e.SocketReady?
    ensures PhaseFitsAnswer(Step(s, e), c, heard, early)
  {
    if e.wait in s.waits && s.waits[e.wait].Accepting? {
      AcceptWaitFitsAnswer(s, e, c, heard, early);
    } else {
      RefusalFitsAnswer(s, e, c, heard, early);
    }
  }

  lemma PeerFitsAnswer(s: State, e: Event, c: CallId, heard: bool, early: bool)
    requires PhaseFitsAnswer(s, c, heard, early) && e.IceReady?
    ensures PhaseFitsAnswer(Step(s, e), c, heard, early || (OpensPeer(s, e, c) && !heard && !Said(s, c)))
  {
  }

  lemma AcceptedFitsAnswer(s: State, e: Event, c: CallId, heard: bool, early: bool)
    requires PhaseFitsAnswer(s, c, heard, early) && e.GotAccepted?
    ensures PhaseFitsAnswer(Step(s, e), c, heard || HearsAnswer(s, e, c), early)
  {
    StillSaid(s, e, c);
  }

  lemma ShowFitsAnswer(s: State, e: Event, c: CallId, heard: bool, early: bool)
    requires PhaseFitsAnswer(s, c, heard, early) && (e.StartOutgoing? || e.Present?) && ShowsNewCall(s, e)
    ensures PhaseFitsAnswer(Step(s, e), c, heard, early)
  {
    StillSaid(s, e, c);
  }

  lemma UserFitsAnswer(s: State, e: Event, c: CallId, heard: bool, early: bool)
    requires PhaseFitsAnswer(s, c, heard, early) && (e.Refuse? || e.HangUp? || e.Abandon? || e.Dismiss? || e.GotEnded?)
    ensures PhaseFitsAnswer(Step(s, e), c, heard, early)
  {
    StillSaid(s, e, c);
  }

  lemma LinkFitsAnswer(s: State, e: Event, c: CallId, heard: bool, early: bool)
    requires PhaseFitsAnswer(s, c, heard, early) && (e.SocketReconnected? || e.LinkChanged? || e.ReconnectTimeout?)
    ensures PhaseFitsAnswer(Step(s, e), c, heard, early)
  {
    StillSaid(s, e, c);
  }

  lemma StepFitsAnswer(s: State, e: Event, c: CallId, heard: bool, early: bool)
    requires PhaseFitsAnswer(s, c, heard, early) && ShowsNewCall(s, e)
    ensures PhaseFitsAnswer(Step(s, e), c, heard || HearsAnswer(s, e, c), early || (OpensPeer(s, e, c) && !heard && !Said(s, c)))
  {
    if e.Answer? {
      AnswerFitsAnswer(s, e, c, heard, early);
    } else if e.SocketReady? {
      SocketFitsAnswer(s, e, c, heard, early);
    } else if e.IceReady? {
      PeerFitsAnswer(s, e, c, heard, early);
    } else if e.GotAccepted? {
      AcceptedFitsAnswer(s, e, c, heard, early);
    } else if e.StartOutgoing? || e.Present? {
      ShowFitsAnswer(s, e, c, heard, early);
    } else if e.SocketReconnected? || e.LinkChanged? || e.ReconnectTimeout? {
      LinkFitsAnswer(s, e, c, heard, early);
    } else {
      UserFitsAnswer(s, e, c, heard, early);
    }
  }

  lemma {:induction false} RunFitsAnswer(canWait: bool, events: seq<Event>, c: CallId)
    requires ShownOnce(canWait, events)
    ensures PhaseFitsAnswer(Run(canWait, events), c, Heard(canWait, events, c), OpenedEarly(canWait, events, c))
  {
    if events != [] {
      var init := events[..|events| - 1];
      RunFitsAnswer(canWait, init, c);
      StepFitsAnswer(Run(canWait, init), events[|events| - 1], c, Heard(canWait, init, c), OpenedEarly(canWait, init, c));
    }
  }

  lemma {:induction false} PrefixShownOnce(canWait: bool, events: seq<Event>, k: nat)
    requires ShownOnce(canWait, events) && k <= |events|
    ensures ShownOnce(canWait, events[..k])
  {
    if k < |events| {
      PrefixShownOnce(canWait, events[..|events| - 1], k);
      assert events[..|events| - 1][..k] == events[..k];
    } else {
      assert events[..k] == events;
    }
  }

  /** A cancel is sent, or tried, by hanging up an outgoing call that nobody has answered as far as this phone
   *  has heard; an end by hanging up, or giving up, a call that was answered, by the other side or by this
   *  one -- or for which a peer was opened too early. */
  lemma CancelledOrEnded(canWait: bool, events: seq<Event>, msg: Msg, c: CallId, ok: bool) returns (k: nat)
    requires ShownOnce(canWait, events) && Send(msg, c, ok) in Run(canWait, events).log && (msg == Cancel || msg == End)
    ensures k < |events| && Current(Run(canWait, events[..k]), c)
    ensures var s, before := Run(canWait, events[..k]), events[..k];
            if msg == Cancel
            then events[k].HangUp? && s.snap.value.direction == Outgoing && !Heard(canWait, before, c)
            else (events[k].HangUp? || events[k] == ReconnectTimeout(ok))
                 && (Heard(canWait, before, c) || Said(s, c) || OpenedEarly(canWait, before, c))
  {
    k := SentWithGrounds(canWait, events, Send(msg, c, ok));
    PrefixShownOnce(canWait, events, k);
    RunFitsAnswer(canWait, events[..k], c);
  }

  // ---- what may follow -----------------------------------------------------------------------------

  /** The state after more events. */
  function Onward(s: State, more: seq<Event>): State {
    if more == [] then s else Step(Onward(s, more[..|more| - 1]), more[|more| - 1])
  }

  /** Call `d` is on screen, and not answered yet: it rings here, or there. */
  predicate Unanswered(s: State, d: CallId) {
    Current(s, d) && (s.snap.value.phase == Ringing || s.snap.value.phase == Calling)
  }

  predicate StaysUnanswered(s: State, more: seq<Event>, d: CallId) {
    && Unanswered(Onward(s, more), d)
    && (more != [] ==> StaysUnanswered(s, more[..|more| - 1], d))
  }

  predicate NoIce(s: State) {
    forall i | i in s.waits :: !s.waits[i].Ice?
  }

  /** No peer, none to come, and nothing that answers `d`. */
  predicate NoPeerComing(s: State, d: CallId) {
    !s.pc && NoIce(s) && forall i | i in s.waits :: !(s.waits[i].Accepting? && s.waits[i].call == d)
  }

  lemma StepOpensNoPeer(s: State, e: Event, d: CallId)
    requires Unanswered(s, d) && NoPeerComing(s, d) && Unanswered(Step(s, e), d)
    ensures NoPeerComing(Step(s, e), d)
  {
  }

  lemma {:induction false} NoPeerOnward(s: State, more: seq<Event>, d: CallId)
    requires Unanswered(s, d) && NoPeerComing(s, d) && StaysUnanswered(s, more, d)
    ensures NoPeerComing(Onward(s, more), d)
  {
    if more != [] {
      NoPeerOnward(s, more[..|more| - 1], d);
      StepOpensNoPeer(Onward(s, more[..|more| - 1]), more[|more| - 1], d);
    }
  }

  /** The ICE servers that are awaited open a peer for whatever call they find. */
  lemma IceOpensPeer(s: State, d: CallId, i: WaitId)
    requires Unanswered(s, d) && i in s.waits && s.waits[i].Ice?
    ensures StaysUnanswered(s, [IceReady(i)], d) && Onward(s, [IceReady(i)]).pc
  {
    assert [IceReady(i)][..0] == [];
    assert StaysUnanswered(s, [], d);
    assert Onward(s, [IceReady(i)]) == Step(s, IceReady(i));
  }

  /** While a call rings, on this phone or on the other's, no peer connection is opened for it if and only
   *  if no ICE servers asked for earlier are still awaited. */
  lemma UnansweredWithoutPeerIff(canWait: bool, events: seq<Event>, d: CallId)
    requires ShownOnce(canWait, events)
    requires Unanswered(Run(canWait, events), d) && !Run(canWait, events).pc
    ensures var s := Run(canWait, events);
            NoIce(s) <==> (forall more | StaysUnanswered(s, more, d) :: !Onward(s, more).pc)
  {
    var s := Run(canWait, events);
    RunKeepsInv(canWait, events);
    if NoIce(s) {
      NothingAnswers(s, d);
      forall more | StaysUnanswered(s, more, d) ensures !Onward(s, more).pc {
        NoPeerOnward(s, more, d);
      }
    } else {
      var i :| i in s.waits && s.waits[i].Ice?;
      IceOpensPeer(s, d, i);
    }
  }

  lemma NothingAnswers(s: State, d: CallId)
    requires CallsOk(s) && WaitsOk(s) && Unanswered(s, d)
    ensures forall i | i in s.waits :: !(s.waits[i].Accepting? && s.waits[i].call == d)
  {
    assert CallOk(s, d);
    forall i | i in s.waits ensures !(s.waits[i].Accepting? && s.waits[i].call == d) {
      assert WaitOk(s, s.waits[i]);
    }
  }

  // ---- a second showing ----------------------------------------------------------------------------

  /** From here on, no call is shown that was shown before. */
  predicate ShownOnceMore(s: State, more: seq<Event>) {
    more != [] ==>
      ShownOnceMore(s, more[..|more| - 1]) && ShowsNewCall(Onward(s, more[..|more| - 1]), more[|more| - 1])
  }

  lemma {:induction false} OnwardKeepsInv(s: State, more: seq<Event>)
    requires Inv(s) && ShownOnceMore(s, more)
    ensures Inv(Onward(s, more))
  {
    if more != [] {
      OnwardKeepsInv(s, more[..|more| - 1]);
      StepKeepsInv(Onward(s, more[..|more| - 1]), more[|more| - 1]);
    }
  }

  /** `s` with an earlier log in front of its own. */
  function Behind(log: seq<Out>, s: State): State {
    s.(log := log + s.log)
  }

  lemma FinishIgnoresLog(log: seq<Out>, s: State)
    ensures FinishCall(Behind(log, s)) == Behind(log, FinishCall(s))
  {
    if Busy(s) {
      var c := s.snap.value.call;
      assert log + s.log + [Stats(c)] == log + (s.log + [Stats(c)]);
      assert log + s.log + [Finished(c)] == log + (s.log + [Finished(c)]);
      assert log + s.log + [Stats(c)] + [Finished(c)] == log + (s.log + [Stats(c)] + [Finished(c)]);
    }
  }

  lemma LogIgnoresLog(log: seq<Out>, s: State, x: Out)
    ensures Log(Behind(log, s), x) == Behind(log, Log(s, x))
  {
    assert log + s.log + [x] == log + (s.log + [x]);
  }

  lemma TryIgnoresLog(log: seq<Out>, s: State, wait: WaitId, d: CallId, attempt: nat, ok: bool)
    ensures TryAccept(Behind(log, s), wait, d, attempt, ok) == Behind(log, TryAccept(s, wait, d, attempt, ok))
  {
    LogIgnoresLog(log, s, Send(Accept, d, ok));
    FinishIgnoresLog(log, Log(s, Send(Accept, d, ok)));
  }

  lemma CloseIgnoresLog(log: seq<Out>, s: State, msg: Msg, d: CallId, ok: bool)
    ensures FinishCall(Log(Behind(log, s), Send(msg, d, ok))) == Behind(log, FinishCall(Log(s, Send(msg, d, ok))))
  {
    LogIgnoresLog(log, s, Send(msg, d, ok));
    FinishIgnoresLog(log, Log(s, Send(msg, d, ok)));
  }

  lemma RefuseIgnoresLog(log: seq<Out>, s: State, wait: WaitId, d: CallId, left: nat, ok: bool)
    ensures DeclineCall(Behind(log, s), wait, d, left, ok) == Behind(log, DeclineCall(s, wait, d, left, ok))
    ensures FinishCall(DeclineCall(Behind(log, s), wait, d, left, ok)) == Behind(log, FinishCall(DeclineCall(s, wait, d, left, ok)))
  {
    LogIgnoresLog(log, s, Send(Decline, d, ok));
    FinishIgnoresLog(log, DeclineCall(s, wait, d, left, ok));
  }

  lemma AnswerIgnoresLog(log: seq<Out>, s: State, wait: WaitId, ok: bool)
    ensures DoAnswer(Behind(log, s), wait, ok) == Behind(log, DoAnswer(s, wait, ok))
  {
    if s.snap.Some? {
      TryIgnoresLog(log, WithPhase(s, Connecting).(acceptSent := false), wait, s.snap.value.call, 1, ok);
    }
  }

  lemma HangUpIgnoresLog(log: seq<Out>, s: State, wait: WaitId, ok: bool)
    ensures DoHangUp(Behind(log, s), wait, ok) == Behind(log, DoHangUp(s, wait, ok))
  {
    if wait !in s.waits && Busy(s) {
      RefuseIgnoresLog(log, s, wait, s.snap.value.call, SIGNAL_ATTEMPTS, ok);
      CloseIgnoresLog(log, s, if s.snap.value.phase == Calling then Cancel else End, s.snap.value.call, ok);
    }
  }

  lemma UserIgnoresLog(log: seq<Out>, s: State, e: Event)
    requires e.Answer? || e.Refuse? || e.HangUp?
    ensures Step(Behind(log, s), e) == Behind(log, Step(s, e))
  {
    if e.Answer? {
      AnswerIgnoresLog(log, s, e.wait, e.ok);
    } else if e.HangUp? {
      HangUpIgnoresLog(log, s, e.wait, e.ok);
    } else if s.snap.Some? {
      RefuseIgnoresLog(log, s, e.wait, s.snap.value.call, SIGNAL_ATTEMPTS, e.ok);
    }
  }

  lemma AcceptingIgnoresLog(log: seq<Out>, s: State, wait: WaitId, up: bool, ok: bool)
    requires wait in s.waits && s.waits[wait].Accepting?
    ensures DoSocketReady(Behind(log, s), wait, up, ok) == Behind(log, DoSocketReady(s, wait, up, ok))
  {
    var done := s.(waits := s.waits - {wait});
    assert Behind(log, s).(waits := s.waits - {wait}) == Behind(log, done);
    if up {
      TryIgnoresLog(log, done, wait, s.waits[wait].call, s.waits[wait].attempt, ok);
    } else {
      FinishIgnoresLog(log, done);
    }
  }

  lemma DecliningIgnoresLog(log: seq<Out>, s: State, wait: WaitId, up: bool, ok: bool)
    requires wait in s.waits && s.waits[wait].Declining?
    ensures DoSocketReady(Behind(log, s), wait, up, ok) == Behind(log, DoSocketReady(s, wait, up, ok))
  {
    var done := s.(waits := s.waits - {wait});
    assert Behind(log, s).(waits := s.waits - {wait}) == Behind(log, done);
    RefuseIgnoresLog(log, done, wait, s.waits[wait].call, s.waits[wait].attemptsLeft, ok);
  }

  lemma SocketIgnoresLog(log: seq<Out>, s: State, e: Event)
    requires e.SocketReady?
    ensures Step(Behind(log, s), e) == Behind(log, Step(s, e))
  {
    if e.wait in s.waits && s.waits[e.wait].Accepting? {
      AcceptingIgnoresLog(log, s, e.wait, e.up, e.ok);
    } else if e.wait in s.waits && s.waits[e.wait].Declining? {
      DecliningIgnoresLog(log, s, e.wait, e.up, e.ok);
    }
  }

  lemma ShowIgnoresLog(log: seq<Out>, s: State, e: Event)
    requires e.StartOutgoing? || e.Present?
    ensures Step(Behind(log, s), e) == Behind(log, Step(s, e))
  {
    match e
    case StartOutgoing(d, ok) => LogIgnoresLog(log, ShowCall(s, d, Outgoing), Send(Invite, d, ok));
    case Present(d, announce, ok) => LogIgnoresLog(log, ShowCall(s, d, Incoming), Send(RingingMsg, d, ok));
  }

  lemma EndIgnoresLog(log: seq<Out>, s: State, e: Event)
    requires e.Abandon? || e.Dismiss? || e.GotEnded?
    ensures Step(Behind(log, s), e) == Behind(log, Step(s, e))
  {
    FinishIgnoresLog(log, s);
  }

  lemma PeerIgnoresLog(log: seq<Out>, s: State, e: Event)
    requires e.IceReady?
    ensures Step(Behind(log, s), e) == Behind(log, Step(s, e))
  {
  }

  lemma AcceptedIgnoresLog(log: seq<Out>, s: State, d: CallId, here: bool, wait: WaitId)
    ensures DoAccepted(Behind(log, s), d, here, wait) == Behind(log, DoAccepted(s, d, here, wait))
  {
    if Current(s, d) && s.snap.value.direction == Incoming {
      FinishIgnoresLog(log, s);
    }
  }

  lemma LinkIgnoresLog(log: seq<Out>, s: State, e: Event)
    requires e.SocketReconnected? || e.LinkChanged? || e.ReconnectTimeout?
    ensures Step(Behind(log, s), e) == Behind(log, Step(s, e))
  {
    if s.snap.Some? && !e.LinkChanged? {
      if e.SocketReconnected? {
        LogIgnoresLog(log, s, Send(Resume, s.snap.value.call, e.ok));
      } else {
        CloseIgnoresLog(log, s, End, s.snap.value.call, e.ok);
      }
    }
  }

  /** The engine never looks at what it has sent. */
  lemma StepIgnoresLog(log: seq<Out>, s: State, e: Event)
    ensures Step(Behind(log, s), e) == Behind(log, Step(s, e))
  {
    if e.StartOutgoing? || e.Present? {
      ShowIgnoresLog(log, s, e);
    } else if e.Answer? || e.Refuse? || e.HangUp? {
      UserIgnoresLog(log, s, e);
    } else if e.SocketReady? {
      SocketIgnoresLog(log, s, e);
    } else if e.SocketReconnected? || e.LinkChanged? || e.ReconnectTimeout? {
      LinkIgnoresLog(log, s, e);
    } else if e.IceReady? {
      PeerIgnoresLog(log, s, e);
    } else if e.GotAccepted? {
      AcceptedIgnoresLog(log, s, e.call, e.here, e.wait);
    } else {
      EndIgnoresLog(log, s, e);
    }
  }

  lemma {:induction false} OnwardIgnoresLog(log: seq<Out>, s: State, more: seq<Event>)
    ensures Onward(Behind(log, s), more) == Behind(log, Onward(s, more))
    ensures ShownOnceMore(Behind(log, s), more) <==> ShownOnceMore(s, more)
  {
    if more != [] {
      OnwardIgnoresLog(log, s, more[..|more| - 1]);
      StepIgnoresLog(log, Onward(s, more[..|more| - 1]), more[|more| - 1]);
    }
  }

  lemma {:induction false} TallyJoins(a: seq<Out>, b: seq<Out>, c: CallId)
    ensures TallyOf(a + b, c) == TallyOf(a, c) + TallyOf(b, c)
  {
    if b == [] {
      assert a + b == a;
    } else {
      var x := b[|b| - 1];
      TallyJoins(a, b[..|b| - 1], c);
      assert a + b == (a + b[..|b| - 1]) + [x];
      TallyAfter(a + b[..|b| - 1], x, c);
    }
  }

  /** The log without a word about `c`. */
  function Without(log: seq<Out>, c: CallId): seq<Out> {
    if log == [] then []
    else
      var x := log[|log| - 1];
      var before := Without(log[..|log| - 1], c);
      if x.call == c then before else before + [x]
  }

  lemma {:induction false} WithoutTally(log: seq<Out>, c: CallId, d: CallId)
    ensures TallyOf(Without(log, c), d) == if d == c then multiset{} else TallyOf(log, d)
  {
    if log != [] {
      WithoutTally(log[..|log| - 1], c, d);
      TallyAfter(Without(log[..|log| - 1], c), log[|log| - 1], d);
    }
  }

  lemma {:induction false} OverIsLogged(log: seq<Out>, c: CallId)
    requires TallyOf(log, c)[CallOver] > 0
    ensures exists i :: 0 <= i < |log| && log[i] == Finished(c)
  {
    var init := log[..|log| - 1];
    if log[|log| - 1] != Finished(c) {
      OverIsLogged(init, c);
      var i :| 0 <= i < |init| && init[i] == Finished(c);
      assert log[i] == Finished(c);
    }
  }

  lemma NotAcceptedAfter(log: seq<Out>, x: Out)
    requires EndIsEnd(log + [x]) && TallyOf(log, x.call)[CallOver] > 0
    ensures x != Send(Accept, x.call, true) && EndIsEnd(log)
  {
    OverIsLogged(log, x.call);
    var i :| 0 <= i < |log| && log[i] == Finished(x.call);
    assert (log + [x])[i] == Finished(x.call) && (log + [x])[|log|] == x;
    forall i, j | 0 <= i < j < |log| && log[i].Finished? ensures log[j] != Send(Accept, log[i].call, true) {
      assert (log + [x])[i] == log[i] && (log + [x])[j] == log[j];
    }
  }

  lemma {:induction false} WithoutEnds(log: seq<Out>, c: CallId)
    requires EndIsEnd(log)
    ensures EndIsEnd(Without(log, c))
  {
    if log != [] {
      var init, x := log[..|log| - 1], log[|log| - 1];
      assert log == init + [x];
      WithoutEnds(init, c);
      if x.call != c {
        WithoutTally(init, c, x.call);
        if TallyOf(init, x.call)[CallOver] > 0 {
          NotAcceptedAfter(init, x);
        }
        EndAfter(Without(init, c), x);
      }
    }
  }

  /** What this phone already said of `c`, or is still about to say. */
  predicate Marked(s: State, c: CallId) {
    || TallyOf(s.log, c)[AcceptOut] > 0
    || TallyOf(s.log, c)[DeclineOut] > 0
    || exists i | i in s.waits :: !s.waits[i].Ice? && s.waits[i].call == c
  }

  /** Both an accept and a decline of `c` got out. */
  predicate BothOut(log: seq<Out>, c: CallId) {
    TallyOf(log, c)[AcceptOut] > 0 && TallyOf(log, c)[DeclineOut] > 0
  }

  predicate Rings(s: State, c: CallId) {
    s.snap == Some(Snapshot(c, Incoming, Ringing))
  }

  /** `s` as if `c` had never been shown. */
  function Unshown(s: State, c: CallId): State {
    s.(log := Without(s.log, c), seen := s.seen - {c}, snap := None)
  }

  lemma UnshownCallsOk(s: State, c: CallId)
    requires CallsOk(s) && !Busy(s)
    ensures CallsOk(Unshown(s, c))
  {
    forall d: CallId ensures CallOk(Unshown(s, c), d) {
      assert CallOk(s, d);
      WithoutTally(s.log, c, d);
    }
  }

  lemma UnshownKeepsInv(s: State, c: CallId)
    requires Inv(s) && !Busy(s) && !Marked(s, c)
    ensures Inv(Unshown(s, c))
  {
    var u := Unshown(s, c);
    UnshownCallsOk(s, c);
    WithoutEnds(s.log, c);
    forall i | i in u.waits ensures WaitOk(u, u.waits[i]) {
      if !s.waits[i].Ice? {
        WithoutTally(s.log, c, s.waits[i].call);
        OtherWaitOk(s, u, s.waits[i]);
      }
    }
  }

  /** What showing `c` puts in the log. */
  function Announced(c: CallId, announce: bool, ok: bool): seq<Out> {
    if announce then [Send(RingingMsg, c, ok)] else []
  }

  lemma UnmarkedIsLikeNew(s: State, c: CallId, announce: bool, ok: bool, more: seq<Event>)
    requires Inv(s) && !Busy(s) && c in s.seen && !Marked(s, c)
    requires ShownOnceMore(Step(s, Present(c, announce, ok)), more)
    ensures !BothOut(Onward(Step(s, Present(c, announce, ok)), more).log, c)
  {
    var e := Present(c, announce, ok);
    var u := Unshown(s, c);
    var first := ShowCall(s, c, Incoming).(log := Announced(c, announce, ok));
    assert u.seen + {c} == s.seen + {c};
    assert Step(s, e) == Behind(s.log, first) && Step(u, e) == Behind(u.log, first);
    UnshownKeepsInv(s, c);
    StepKeepsInv(u, e);
    OnwardIgnoresLog(s.log, first, more);
    OnwardIgnoresLog(u.log, first, more);
    OnwardKeepsInv(Step(u, e), more);
    assert CallOk(Onward(Step(u, e), more), c);
    TallyJoins(s.log, Onward(first, more).log, c);
    TallyJoins(u.log, Onward(first, more).log, c);
    WithoutTally(s.log, c, c);
  }

  lemma {:induction false} OnwardJoins(s: State, a: seq<Event>, b: seq<Event>)
    ensures Onward(s, a + b) == Onward(Onward(s, a), b)
    ensures ShownOnceMore(s, a) && ShownOnceMore(Onward(s, a), b) ==> ShownOnceMore(s, a + b)
  {
    if b == [] {
      assert a + b == a;
    } else {
      OnwardJoins(s, a, b[..|b| - 1]);
      assert (a + b)[..|a + b| - 1] == a + b[..|b| - 1];
    }
  }

  lemma OneMore(s: State, e: Event)
    ensures Onward(s, [e]) == Step(s, e)
    ensures ShowsNewCall(s, e) ==> ShownOnceMore(s, [e])
  {
    assert [e][..0] == [];
  }

  lemma RefusalGoesOut(s: State, c: CallId) returns (more: seq<Event>)
    requires Rings(s, c) && TallyOf(s.log, c)[AcceptOut] > 0
    ensures ShownOnceMore(s, more) && BothOut(Onward(s, more).log, c)
  {
    var e := Refuse(Fresh(s.waits.Keys), true);
    OneMore(s, e);
    TallyAfter(s.log, Send(Decline, c, true), c);
    FinishTally(Log(s, Send(Decline, c, true)), c);
    more := [e];
  }

  /** One accept that gets out. */
  lemma AcceptCounts(s: State, w: WaitId, c: CallId, attempt: nat)
    requires Current(s, c)
    ensures TallyOf(TryAccept(s, w, c, attempt, true).log, c) == TallyOf(s.log, c) + multiset{AcceptOut}
  {
    TallyAfter(s.log, Send(Accept, c, true), c);
  }

  lemma AnswerGoesOut(s: State, c: CallId) returns (more: seq<Event>)
    requires Rings(s, c) && TallyOf(s.log, c)[DeclineOut] > 0
    ensures ShownOnceMore(s, more) && BothOut(Onward(s, more).log, c)
  {
    var w := Fresh(s.waits.Keys);
    var e := Answer(w, true);
    var s1 := WithPhase(s, Connecting).(acceptSent := false);
    OneMore(s, e);
    if s.canWait {
      var s2 := Step(s, e);
      assert s2.waits[w] == Accepting(c, 1) && s2.log == s.log;
      OneMore(s2, SocketReady(w, true, true));
      OnwardJoins(s, [e], [SocketReady(w, true, true)]);
      AcceptCounts(s2.(waits := s2.waits - {w}), w, c, 1);
      more := [e] + [SocketReady(w, true, true)];
    } else {
      AcceptCounts(s1, w, c, 1);
      more := [e];
    }
  }

  lemma AcceptGoesOut(s: State, c: CallId, i: WaitId)
    requires Rings(s, c) && i in s.waits && s.waits[i].Accepting? && s.waits[i].call == c
    ensures var t := DoSocketReady(s, i, true, true); Rings(t, c) && TallyOf(t.log, c)[AcceptOut] > 0
  {
    AcceptCounts(s.(waits := s.waits - {i}), i, c, s.waits[i].attempt);
  }

  lemma DeclineGoesOut(s: State, c: CallId, i: WaitId)
    requires Rings(s, c) && i in s.waits && s.waits[i].Declining? && s.waits[i].call == c
    ensures var t := DoSocketReady(s, i, true, true); Rings(t, c) && TallyOf(t.log, c)[DeclineOut] > 0
  {
    TallyAfter(s.log, Send(Decline, c, true), c);
  }

  /** A wait for `c` sees the call ringing again, and its message goes out. */
  lemma WaitGoesOut(s: State, c: CallId, i: WaitId)
    requires Rings(s, c) && i in s.waits && !s.waits[i].Ice? && s.waits[i].call == c
    ensures var t := Step(s, SocketReady(i, true, true));
            Rings(t, c) && (TallyOf(t.log, c)[AcceptOut] > 0 || TallyOf(t.log, c)[DeclineOut] > 0)
  {
    if s.waits[i].Accepting? { AcceptGoesOut(s, c, i); } else { DeclineGoesOut(s, c, i); }
  }

  lemma SpokenThenBoth(s: State, c: CallId) returns (more: seq<Event>)
    requires Rings(s, c) && (TallyOf(s.log, c)[AcceptOut] > 0 || TallyOf(s.log, c)[DeclineOut] > 0)
    ensures ShownOnceMore(s, more) && BothOut(Onward(s, more).log, c)
  {
    if TallyOf(s.log, c)[AcceptOut] > 0 {
      more := RefusalGoesOut(s, c);
    } else {
      more := AnswerGoesOut(s, c);
    }
  }

  lemma MarkedThenBoth(s: State, c: CallId) returns (more: seq<Event>)
    requires Rings(s, c) && Marked(s, c)
    ensures ShownOnceMore(s, more) && BothOut(Onward(s, more).log, c)
  {
    if TallyOf(s.log, c)[AcceptOut] > 0 || TallyOf(s.log, c)[DeclineOut] > 0 {
      more := SpokenThenBoth(s, c);
    } else {
      var i :| i in s.waits && !s.waits[i].Ice? && s.waits[i].call == c;
      var e := SocketReady(i, true, true);
      WaitGoesOut(s, c, i);
      OneMore(s, e);
      var rest := SpokenThenBoth(Step(s, e), c);
      OnwardJoins(s, [e], rest);
      more := [e] + rest;
    }
  }

  lemma MarkedAgain(s: State, c: CallId, announce: bool, ok: bool) returns (more: seq<Event>)
    requires !Busy(s) && Marked(s, c)
    ensures var t := Step(s, Present(c, announce, ok));
            ShownOnceMore(t, more) && BothOut(Onward(t, more).log, c)
  {
    TallyAfter(s.log, Send(RingingMsg, c, ok), c);
    more := MarkedThenBoth(Step(s, Present(c, announce, ok)), c);
  }

  /** However it goes on, `c` does not end up both answered and refused. */
  ghost predicate NeverBoth(s: State, c: CallId) {
    forall more | ShownOnceMore(s, more) :: !BothOut(Onward(s, more).log, c)
  }

  lemma UnmarkedNeverBoth(s: State, c: CallId, announce: bool, ok: bool)
    requires Inv(s) && !Busy(s) && c in s.seen && !Marked(s, c)
    ensures NeverBoth(Step(s, Present(c, announce, ok)), c)
  {
    var t := Step(s, Present(c, announce, ok));
    forall more | ShownOnceMore(t, more) ensures !BothOut(Onward(t, more).log, c) {
      UnmarkedIsLikeNew(s, c, announce, ok, more);
    }
  }

  /** A call that is over is shown a second time: it cannot end up both answered and refused if and only
   *  if this phone got neither answer out the first time, and none still waits for the socket. */
  lemma SecondShowingIff(canWait: bool, events: seq<Event>, c: CallId, announce: bool, ok: bool)
    requires ShownOnce(canWait, events)
    requires !Busy(Run(canWait, events)) && c in Run(canWait, events).seen
    ensures var s := Run(canWait, events);
            !Marked(s, c) <==> NeverBoth(Step(s, Present(c, announce, ok)), c)
  {
    var s := Run(canWait, events);
    RunKeepsInv(canWait, events);
    if Marked(s, c) {
      var more := MarkedAgain(s, c, announce, ok);
    } else {
      UnmarkedNeverBoth(s, c, announce, ok);
    }
  }

  // ---- a second closing ----------------------------------------------------------------------------

  /** The server heard that `c` is off, or a refusal of it still waits for the socket. */
  predicate Closed(s: State, c: CallId) {
    Closings(TallyOf(s.log, c)) > 0 || !NoRefusal(s.waits, c)
  }

  predicate NoRefusal(waits: map<WaitId, Wait>, c: CallId) {
    forall i | i in waits :: !(waits[i].Declining? && waits[i].call == c)
  }

  predicate OneRefusal(waits: map<WaitId, Wait>, c: CallId) {
    forall i, j | i in waits && j in waits && waits[i].Declining? && waits[j].Declining?
                  && waits[i].call == c && waits[j].call == c :: i == j
  }

  /** Of a call that was shown: nothing closed it while it is on screen, and afterwards one message or one
   *  wait at most. */
  predicate OneClosing(s: State, c: CallId) {
    && c in s.seen && ClosingsIn(s.log, c) <= 1 && OneRefusal(s.waits, c)
    && (Current(s, c) || ClosingsIn(s.log, c) == 1 ==> NoRefusal(s.waits, c))
    && (Current(s, c) ==> ClosingsIn(s.log, c) == 0)
  }

  predicate IsClosing(x: Out) {
    x.Send? && x.ok && (x.msg == Decline || x.msg == Cancel || x.msg == End)
  }

  /** How many messages of a log closed `c`. */
  function ClosingsIn(log: seq<Out>, c: CallId): nat {
    if log == [] then 0
    else
      var x := log[|log| - 1];
      ClosingsIn(log[..|log| - 1], c) + if x.call == c && IsClosing(x) then 1 else 0
  }

  lemma ClosingCounts(t: Tally, x: Out)
    ensures Closings(Count(t, x)) == Closings(t) + if IsClosing(x) then 1 else 0
  {
  }

  lemma {:induction false} ClosingsAreTallied(log: seq<Out>, c: CallId)
    ensures ClosingsIn(log, c) == Closings(TallyOf(log, c))
  {
    if log != [] {
      ClosingsAreTallied(log[..|log| - 1], c);
      ClosingCounts(TallyOf(log[..|log| - 1], c), log[|log| - 1]);
    }
  }

  lemma ClosingsAfter(log: seq<Out>, x: Out, c: CallId)
    ensures ClosingsIn(log + [x], c) == ClosingsIn(log, c) + if x.call == c && IsClosing(x) then 1 else 0
  {
    assert (log + [x])[..|log|] == log;
  }

  lemma FinishClosings(s: State, c: CallId)
    ensures ClosingsIn(FinishCall(s).log, c) == ClosingsIn(s.log, c)
  {
    if Busy(s) {
      var d := s.snap.value.call;
      ClosingsAfter(s.log, Stats(d), c);
      ClosingsAfter(s.log, Finished(d), c);
      ClosingsAfter(s.log + [Stats(d)], Finished(d), c);
    }
  }

  /** Nothing that concerns closings changed for `c`, or less of it is left. */
  predicate NoMoreClosings(s: State, t: State, c: CallId) {
    && c in t.seen && ClosingsIn(t.log, c) == ClosingsIn(s.log, c)
    && (Current(t, c) ==> Current(s, c))
    && forall i | i in t.waits && t.waits[i].Declining? && t.waits[i].call == c :: i in s.waits && s.waits[i] == t.waits[i]
  }

  lemma NoMoreKeeps(s: State, t: State, c: CallId)
    requires OneClosing(s, c) && NoMoreClosings(s, t, c)
    ensures OneClosing(t, c)
  {
  }

  lemma FinishNoMore(s: State, c: CallId)
    requires c in s.seen
    ensures NoMoreClosings(s, FinishCall(s), c)
  {
    FinishClosings(s, c);
  }

  lemma LogNoMore(s: State, x: Out, c: CallId)
    requires c in s.seen && !IsClosing(x)
    ensures NoMoreClosings(s, Log(s, x), c)
  {
    ClosingsAfter(s.log, x, c);
  }

  /** A message that closes the current call. */
  lemma CloseOnce(s: State, msg: Msg, ok: bool, c: CallId)
    requires OneClosing(s, c) && Busy(s)
    ensures OneClosing(FinishCall(Log(s, Send(msg, s.snap.value.call, ok))), c)
  {
    var s1 := Log(s, Send(msg, s.snap.value.call, ok));
    ClosingsAfter(s.log, Send(msg, s.snap.value.call, ok), c);
    FinishClosings(s1, c);
  }

  /** A refusal that did not get out will be tried again. */
  lemma RefusalWaits(s: State, wait: WaitId, d: CallId, left: nat, c: CallId)
    requires OneClosing(s, c) && wait !in s.waits && !Current(s, d)
    requires c == d ==> ClosingsIn(s.log, c) == 0 && NoRefusal(s.waits, c)
    ensures OneClosing(s.(waits := s.waits[wait := Declining(d, left)]), c)
  {
  }

  lemma LostClosing(s: State, c: CallId)
    requires OneClosing(s, c) && Busy(s)
    ensures var d := s.snap.value.call;
            var t := FinishCall(Log(s, Send(Decline, d, false)));
            t.waits == s.waits && !Current(t, d) && (c == d ==> ClosingsIn(t.log, c) == 0 && NoRefusal(t.waits, c))
  {
    var d := s.snap.value.call;
    ClosingsAfter(s.log, Send(Decline, d, false), c);
    FinishClosings(Log(s, Send(Decline, d, false)), c);
  }

  lemma RefuseOnce(s: State, wait: WaitId, ok: bool, c: CallId)
    requires OneClosing(s, c) && Busy(s) && wait !in s.waits
    ensures OneClosing(FinishCall(DeclineCall(s, wait, s.snap.value.call, SIGNAL_ATTEMPTS, ok)), c)
  {
    var d := s.snap.value.call;
    var t := FinishCall(Log(s, Send(Decline, d, ok)));
    var u := FinishCall(DeclineCall(s, wait, d, SIGNAL_ATTEMPTS, ok));
    CloseOnce(s, Decline, ok, c);
    if !ok && s.canWait {
      LostClosing(s, c);
      RefusalWaits(t, wait, d, SIGNAL_ATTEMPTS - 1, c);
      assert u == t.(waits := t.waits[wait := Declining(d, SIGNAL_ATTEMPTS - 1)]);
    } else {
      assert u == t;
    }
  }

  /** A wait that refuses nothing is added. */
  lemma OtherWaitNoMore(s: State, t: State, wait: WaitId, w: Wait, c: CallId)
    requires NoMoreClosings(s, t, c) && !w.Declining?
    ensures NoMoreClosings(s, t.(waits := t.waits[wait := w]), c)
    ensures NoMoreClosings(s, t.(acceptSent := true, waits := t.waits[wait := w]), c)
  {
  }

  lemma TryNoMore(s: State, wait: WaitId, d: CallId, attempt: nat, ok: bool, c: CallId)
    requires c in s.seen
    ensures NoMoreClosings(s, TryAccept(s, wait, d, attempt, ok), c)
  {
    var s1 := Log(s, Send(Accept, d, ok));
    LogNoMore(s, Send(Accept, d, ok), c);
    if Current(s, d) {
      if ok {
        OtherWaitNoMore(s, s1, wait, Ice, c);
      } else if attempt < SIGNAL_ATTEMPTS && s.canWait {
        OtherWaitNoMore(s, s1, wait, Accepting(d, attempt + 1), c);
      } else {
        FinishNoMore(s1, c);
        NoMoreTwice(s, s1, FinishCall(s1), c);
      }
    }
  }

  lemma NoMoreTwice(s: State, t: State, u: State, c: CallId)
    requires NoMoreClosings(s, t, c) && NoMoreClosings(t, u, c)
    ensures NoMoreClosings(s, u, c)
  {
  }

  lemma AnswerClosesNothing(s: State, wait: WaitId, ok: bool, c: CallId)
    requires OneClosing(s, c) && DoAnswer(s, wait, ok) != s
    ensures OneClosing(DoAnswer(s, wait, ok), c)
  {
    var d := s.snap.value.call;
    var s1 := WithPhase(s, Connecting).(acceptSent := false);
    NoMoreKeeps(s, s1, c);
    if s.canWait {
      OtherWaitNoMore(s1, s1, wait, Accepting(d, 1), c);
    } else {
      TryNoMore(s1, wait, d, 1, ok, c);
    }
    NoMoreKeeps(s1, DoAnswer(s, wait, ok), c);
  }

  lemma HangUpClosesOnce(s: State, wait: WaitId, ok: bool, c: CallId)
    requires OneClosing(s, c)
    ensures OneClosing(DoHangUp(s, wait, ok), c)
  {
    if wait !in s.waits && Busy(s) {
      RefuseOnce(s, wait, ok, c);
      CloseOnce(s, if s.snap.value.phase == Calling then Cancel else End, ok, c);
    }
  }

  lemma UserClosesOnce(s: State, e: Event, c: CallId)
    requires OneClosing(s, c) && (e.Answer? || e.Refuse? || e.HangUp?) && Step(s, e) != s
    ensures OneClosing(Step(s, e), c)
  {
    if e.Answer? {
      AnswerClosesNothing(s, e.wait, e.ok, c);
    } else if e.HangUp? {
      HangUpClosesOnce(s, e.wait, e.ok, c);
    } else {
      RefuseOnce(s, e.wait, e.ok, c);
    }
  }

  /** A refusal that waited gets out: there is no other. */
  lemma WaitSaid(s: State, wait: WaitId, c: CallId)
    requires OneClosing(s, c) && wait in s.waits && s.waits[wait].Declining?
    ensures OneClosing(Log(s.(waits := s.waits - {wait}), Send(Decline, s.waits[wait].call, true)), c)
  {
    ClosingsAfter(s.log, Send(Decline, s.waits[wait].call, true), c);
  }

  /** It does not get out, and waits on or is given up. */
  lemma WaitLost(s: State, wait: WaitId, left: nat, c: CallId)
    requires OneClosing(s, c) && wait in s.waits && s.waits[wait].Declining?
    ensures var d := s.waits[wait].call;
            var t := Log(s.(waits := s.waits - {wait}), Send(Decline, d, false));
            OneClosing(t, c) && OneClosing(t.(waits := t.waits[wait := Declining(d, left)]), c)
  {
    ClosingsAfter(s.log, Send(Decline, s.waits[wait].call, false), c);
  }

  lemma RetryOnce(s: State, wait: WaitId, ok: bool, c: CallId)
    requires OneClosing(s, c) && wait in s.waits && s.waits[wait].Declining?
    ensures OneClosing(DeclineCall(s.(waits := s.waits - {wait}), wait, s.waits[wait].call, s.waits[wait].attemptsLeft, ok), c)
  {
    var left := s.waits[wait].attemptsLeft;
    if ok {
      WaitSaid(s, wait, c);
    } else {
      WaitLost(s, wait, if left > 0 then left - 1 else 0, c);
    }
  }

  lemma SocketClosesOnce(s: State, e: Event, c: CallId)
    requires OneClosing(s, c) && e.SocketReady? && Step(s, e) != s
    ensures OneClosing(Step(s, e), c)
  {
    var done := s.(waits := s.waits - {e.wait});
    NoMoreKeeps(s, done, c);
    if s.waits[e.wait].Declining? {
      if e.up { RetryOnce(s, e.wait, e.ok, c); }
    } else {
      var d := s.waits[e.wait].call;
      FinishNoMore(done, c);
      TryNoMore(done, e.wait, d, s.waits[e.wait].attempt, e.ok, c);
      NoMoreKeeps(done, Step(s, e), c);
    }
  }

  lemma ShowsNoMore(s: State, e: Event, c: CallId)
    requires c in s.seen && (e.StartOutgoing? || e.Present?) && ShowsNewCall(s, e)
    ensures NoMoreClosings(s, Step(s, e), c)
  {
    if !Busy(s) {
      ClosingsAfter(s.log, Send(if e.StartOutgoing? then Invite else RingingMsg, e.call, e.ok), c);
    }
  }

  lemma EndNoMore(s: State, e: Event, c: CallId)
    requires c in s.seen && (e.Abandon? || e.Dismiss? || e.GotEnded?)
    ensures NoMoreClosings(s, Step(s, e), c)
  {
    FinishNoMore(s, c);
  }

  lemma AcceptedNoMore(s: State, d: CallId, here: bool, wait: WaitId, c: CallId)
    requires c in s.seen
    ensures NoMoreClosings(s, DoAccepted(s, d, here, wait), c)
  {
    FinishNoMore(s, c);
  }

  lemma PeerNoMore(s: State, e: Event, c: CallId)
    requires c in s.seen && (e.IceReady? || e.LinkChanged?)
    ensures NoMoreClosings(s, Step(s, e), c)
  {
  }

  lemma RestNoMore(s: State, e: Event, c: CallId)
    requires c in s.seen && (e.Abandon? || e.Dismiss? || e.IceReady? || e.GotAccepted? || e.GotEnded? || e.LinkChanged?)
    ensures NoMoreClosings(s, Step(s, e), c)
  {
    if e.GotAccepted? {
      AcceptedNoMore(s, e.call, e.here, e.wait, c);
    } else if e.IceReady? || e.LinkChanged? {
      PeerNoMore(s, e, c);
    } else {
      EndNoMore(s, e, c);
    }
  }

  lemma StepClosesOnce(s: State, e: Event, c: CallId)
    requires OneClosing(s, c) && ShowsNewCall(s, e)
    ensures OneClosing(Step(s, e), c)
  {
    if Step(s, e) != s {
      if e.StartOutgoing? || e.Present? {
        ShowsNoMore(s, e, c);
        NoMoreKeeps(s, Step(s, e), c);
      } else if e.Answer? || e.Refuse? || e.HangUp? {
        UserClosesOnce(s, e, c);
      } else if e.SocketReady? {
        SocketClosesOnce(s, e, c);
      } else if e.SocketReconnected? {
        LogNoMore(s, Send(Resume, s.snap.value.call, e.ok), c);
        NoMoreKeeps(s, Step(s, e), c);
      } else if e.ReconnectTimeout? {
        CloseOnce(s, End, e.ok, c);
      } else {
        RestNoMore(s, e, c);
        NoMoreKeeps(s, Step(s, e), c);
      }
    }
  }

  lemma {:induction false} OnwardClosesOnce(s: State, more: seq<Event>, c: CallId)
    requires OneClosing(s, c) && ShownOnceMore(s, more)
    ensures OneClosing(Onward(s, more), c)
  {
    if more != [] {
      OnwardClosesOnce(s, more[..|more| - 1], c);
      StepClosesOnce(Onward(s, more[..|more| - 1]), more[|more| - 1], c);
    }
  }

  /** However it goes on, the server hears once at most that `c` is off. */
  ghost predicate NeverClosedTwice(s: State, c: CallId) {
    forall more | ShownOnceMore(s, more) :: Closings(TallyOf(Onward(s, more).log, c)) <= 1
  }

  lemma RefusedAgain(s: State, c: CallId) returns (more: seq<Event>)
    requires Rings(s, c) && ClosingsIn(s.log, c) > 0
    ensures ShownOnceMore(s, more) && ClosingsIn(Onward(s, more).log, c) > 1
  {
    var e := Refuse(Fresh(s.waits.Keys), true);
    OneMore(s, e);
    ClosingsAfter(s.log, Send(Decline, c, true), c);
    FinishClosings(Log(s, Send(Decline, c, true)), c);
    more := [e];
  }

  /** A refusal that waited goes out while the call rings again. */
  lemma WaitedRefusal(s: State, i: WaitId, c: CallId)
    requires Rings(s, c) && i in s.waits && s.waits[i].Declining? && s.waits[i].call == c
    ensures var t := Step(s, SocketReady(i, true, true)); Rings(t, c) && ClosingsIn(t.log, c) > 0
  {
    ClosingsAfter(s.log, Send(Decline, c, true), c);
  }

  lemma ClosedAgain(s: State, c: CallId) returns (more: seq<Event>)
    requires Rings(s, c) && (ClosingsIn(s.log, c) > 0 || !NoRefusal(s.waits, c))
    ensures ShownOnceMore(s, more) && ClosingsIn(Onward(s, more).log, c) > 1
  {
    if ClosingsIn(s.log, c) > 0 {
      more := RefusedAgain(s, c);
    } else {
      var i :| i in s.waits && s.waits[i].Declining? && s.waits[i].call == c;
      var e := SocketReady(i, true, true);
      WaitedRefusal(s, i, c);
      OneMore(s, e);
      var rest := RefusedAgain(Step(s, e), c);
      OnwardJoins(s, [e], rest);
      more := [e] + rest;
    }
  }

  lemma ShownAgainClosings(s: State, c: CallId, announce: bool, ok: bool)
    requires !Busy(s)
    ensures var t := Step(s, Present(c, announce, ok));
            Rings(t, c) && t.waits == s.waits && c in t.seen && ClosingsIn(t.log, c) == ClosingsIn(s.log, c)
  {
    var shown := ShowCall(s, c, Incoming);
    assert Step(s, Present(c, announce, ok)) == if announce then Log(shown, Send(RingingMsg, c, ok)) else shown;
    ClosingsAfter(shown.log, Send(RingingMsg, c, ok), c);
  }

  lemma OpenClosesOnce(s: State, c: CallId)
    requires OneClosing(s, c)
    ensures NeverClosedTwice(s, c)
  {
    forall more | ShownOnceMore(s, more) ensures Closings(TallyOf(Onward(s, more).log, c)) <= 1 {
      OnwardClosesOnce(s, more, c);
      ClosingsAreTallied(Onward(s, more).log, c);
    }
  }

  /** A call that is over is shown a second time: the server hears once at most that it is off if and only
   *  if it has not heard so before, and no refusal still waits for the socket. */
  lemma SecondClosingIff(canWait: bool, events: seq<Event>, c: CallId, announce: bool, ok: bool)
    requires ShownOnce(canWait, events)
    requires !Busy(Run(canWait, events)) && c in Run(canWait, events).seen
    ensures var s := Run(canWait, events);
            !Closed(s, c) <==> NeverClosedTwice(Step(s, Present(c, announce, ok)), c)
  {
    var s := Run(canWait, events);
    var t := Step(s, Present(c, announce, ok));
    ShownAgainClosings(s, c, announce, ok);
    ClosingsAreTallied(s.log, c);
    if Closed(s, c) {
      var more := ClosedAgain(t, c);
      ClosingsAreTallied(Onward(t, more).log, c);
    } else {
      OpenClosesOnce(t, c);
    }
  }

  // ---- the engine itself ---------------------------------------------------------------------------

  /** The engine's fields. A method is one stretch between two `await`s; those that end in an `await`
   *  leave it in `waits` under the id given. */
  class Engine {
    const canWait: bool
    var snap: Option<Snapshot>
    var pc: bool
    var acceptSent: bool
    var reconnectTimer: bool
    var waits: map<WaitId, Wait>
    var log: seq<Out>
    ghost var seen: set<CallId>

    ghost function View(): State
      reads this
    {
      State(canWait, snap, pc, acceptSent, reconnectTimer, waits, log, seen)
    }

    constructor (canWait: bool)
      ensures View() == Start(canWait)
    {
      this.canWait := canWait;
      snap, pc, acceptSent, reconnectTimer, waits, log, seen := None, false, false, false, map[], [], {};
    }

    predicate IsBusy()
      reads this
      ensures IsBusy() <==> Busy(View())
    {
      snap.Some? && snap.value.phase != Ended
    }

    predicate IsCurrent(call: CallId)
      reads this
      ensures IsCurrent(call) <==> Current(View(), call)
    {
      IsBusy() && snap.value.call == call
    }

    method Finish()
      modifies this
      ensures View() == FinishCall(old(View()))
      ensures !IsBusy() && (old(IsBusy()) ==> !pc && !reconnectTimer)
      ensures log == old(log) + if !old(IsBusy()) then [] else (if old(pc) then [Stats(old(snap.value.call))] else []) + [Finished(old(snap.value.call))]
      ensures snap == (if old(IsBusy()) then Some(old(snap).value.(phase := Ended)) else old(snap)) && waits == old(waits)
    {
      if !IsBusy() { return; }
      var hadConnection := pc;
      reconnectTimer := false;
      if hadConnection { log := log + [Stats(snap.value.call)]; }
      pc := false;
      snap := Some(snap.value.(phase := Ended));
      log := log + [Finished(snap.value.call)];
    }

    method Show(call: CallId, direction: Direction)
      modifies this
      ensures View() == ShowCall(old(View()), call, direction)
      ensures snap == Some(Snapshot(call, direction, if direction == Outgoing then Calling else Ringing)) && !pc && !reconnectTimer
    {
      reconnectTimer, pc := false, false;
      snap := Some(Snapshot(call, direction, if direction == Outgoing then Calling else Ringing));
      seen := seen + {call};
    }

    method StartOutgoing(call: CallId, ok: bool) returns (started: bool)
      modifies this
      ensures View() == Step(old(View()), Event.StartOutgoing(call, ok))
      ensures started <==> !Busy(old(View()))
      ensures started ==> IsCurrent(call) && snap.value.phase == Calling && log == old(log) + [Send(Invite, call, ok)]
      ensures !started ==> View() == old(View())
      ensures started ==> snap == Some(Snapshot(call, Outgoing, Calling)) && !pc && !reconnectTimer && waits == old(waits)
    {
      if IsBusy() { return false; }
      Show(call, Outgoing);
      log := log + [Send(Invite, call, ok)];
      return true;
    }

    method PresentIncoming(call: CallId, announce: bool, ok: bool) returns (shown: bool)
      modifies this
      ensures View() == Step(old(View()), Present(call, announce, ok))
      ensures shown <==> IsCurrent(call)
      ensures !old(IsBusy()) ==> snap == Some(Snapshot(call, Incoming, Ringing)) && log == old(log) + if announce then [Send(RingingMsg, call, ok)] else []
      ensures old(IsBusy()) ==> View() == old(View())
    {
      if IsBusy() { return snap.value.call == call; }
      Show(call, Incoming);
      if announce { log := log + [Send(RingingMsg, call, ok)]; }
      return true;
    }

    /** `accept` up to its first `await`. */
    method Accept(wait: WaitId, ok: bool)
      requires wait !in waits
      modifies this
      ensures View() == Step(old(View()), Answer(wait, ok))
      ensures !(old(snap).Some? && old(snap).value.phase == Ringing) ==> View() == old(View())
      ensures old(snap).Some? && old(snap).value.phase == Ringing && canWait ==> wait in waits && waits[wait].Accepting? && log == old(log)
      ensures old(snap).Some? && old(snap).value.phase == Ringing && canWait ==>
                waits == old(waits)[wait := Accepting(old(snap).value.call, 1)] && snap == Some(old(snap).value.(phase := Connecting)) && !acceptSent
      ensures old(snap).Some? && old(snap).value.phase == Ringing && !canWait ==>
                if ok then log == old(log) + [Send(Msg.Accept, old(snap).value.call, true)] && acceptSent && waits == old(waits)[wait := Ice]
                           && snap == Some(old(snap).value.(phase := Connecting))
                else !IsBusy() && waits == old(waits)
    {
      if snap.None? || snap.value.phase != Ringing { return; }
      acceptSent := false;
      snap := Some(snap.value.(phase := Connecting));
      if canWait {
        waits := waits[wait := Accepting(snap.value.call, 1)];
      } else {
        AcceptRound(wait, snap.value.call, 1, ok);
      }
    }

    /** One round of the accept loop. */
    method AcceptRound(wait: WaitId, call: CallId, attempt: nat, ok: bool)
      modifies this
      ensures View() == TryAccept(old(View()), wait, call, attempt, ok)
      ensures !old(IsCurrent(call)) ==> View() == old(View())
      ensures old(IsCurrent(call)) && ok ==> log == old(log) + [Send(Msg.Accept, call, true)] && acceptSent && waits == old(waits)[wait := Ice] && snap == old(snap)
      ensures old(IsCurrent(call)) && !ok && attempt < SIGNAL_ATTEMPTS && canWait ==>
                log == old(log) + [Send(Msg.Accept, call, false)] && waits == old(waits)[wait := Accepting(call, attempt + 1)] && snap == old(snap)
      ensures old(IsCurrent(call)) && !ok && !(attempt < SIGNAL_ATTEMPTS && canWait) ==>
                !IsBusy() && waits == old(waits) && log == old(log) + ([Send(Msg.Accept, call, false)] + EndingOf(old(View())))
    {
      if !IsCurrent(call) { return; }
      log := log + [Send(Msg.Accept, call, ok)];
      if ok {
        acceptSent := true;
        waits := waits[wait := Ice];
      } else if attempt < SIGNAL_ATTEMPTS && canWait {
        waits := waits[wait := Accepting(call, attempt + 1)];
      } else {
        Finish();
      }
    }

    method SendDecline(wait: WaitId, call: CallId, attemptsLeft: nat, ok: bool)
      modifies this
      ensures View() == DeclineCall(old(View()), wait, call, attemptsLeft, ok)
      ensures wait in waits && wait !in old(waits) <==> wait !in old(waits) && !ok && canWait && attemptsLeft > 1
      ensures log == old(log) + [Send(Msg.Decline, call, ok)] && snap == old(snap)
      ensures waits == if ok || !canWait || attemptsLeft <= 1 then old(waits) else old(waits)[wait := Declining(call, attemptsLeft - 1)]
    {
      log := log + [Send(Msg.Decline, call, ok)];
      if ok || !canWait || attemptsLeft <= 1 { return; }
      waits := waits[wait := Declining(call, attemptsLeft - 1)];
    }

    method Decline(wait: WaitId, ok: bool)
      requires wait !in waits
      modifies this
      ensures View() == Step(old(View()), Refuse(wait, ok))
      ensures snap.Some? ==> snap.value.phase != Ringing
      ensures old(snap).Some? && old(snap).value.phase == Ringing ==> !IsBusy() && Send(Msg.Decline, old(snap).value.call, ok) in log
      ensures old(snap).Some? && old(snap).value.phase == Ringing ==>
                log == old(log) + ([Send(Msg.Decline, old(snap).value.call, ok)] + EndingOf(old(View())))
                && waits == if ok || !canWait then old(waits) else old(waits)[wait := Declining(old(snap).value.call, 2)]
      ensures !(old(snap).Some? && old(snap).value.phase == Ringing) ==> View() == old(View())
    {
      if snap.None? || snap.value.phase != Ringing { return; }
      SendDecline(wait, snap.value.call, SIGNAL_ATTEMPTS, ok);
      Finish();
    }

    method HangUp(wait: WaitId, ok: bool)
      requires wait !in waits
      modifies this
      ensures View() == Step(old(View()), Event.HangUp(wait, ok))
      ensures !IsBusy()
      ensures old(IsBusy()) ==>
                log == old(log) + ([Send(HangUpMsg(old(snap).value, old(acceptSent)), old(snap).value.call, ok)] + EndingOf(old(View())))
      ensures !old(IsBusy()) ==> View() == old(View())
      ensures old(IsBusy()) && HangUpMsg(old(snap).value, old(acceptSent)) == Msg.Decline ==>
                waits == if ok || !canWait then old(waits) else old(waits)[wait := Declining(old(snap).value.call, 2)]
      ensures old(IsBusy()) && HangUpMsg(old(snap).value, old(acceptSent)) != Msg.Decline ==> waits == old(waits)
    {
      if IsBusy() { HangUpSays(View(), wait, ok); }
      if !IsBusy() { return; }
      var now := snap.value;
      if now.phase == Ringing {
        Decline(wait, ok);
      } else if now.direction == Incoming && now.phase == Connecting && !acceptSent {
        SendDecline(wait, now.call, SIGNAL_ATTEMPTS, ok);
        Finish();
      } else if now.phase == Calling {
        log := log + [Send(Cancel, now.call, ok)];
        Finish();
      } else {
        log := log + [Send(End, now.call, ok)];
        Finish();
      }
    }

    method AbandonIncoming()
      modifies this
      ensures View() == Step(old(View()), Abandon)
      ensures log == old(log) + if old(snap).Some? && old(snap).value.phase == Ringing then EndingOf(old(View())) else []
      ensures snap == if old(snap).Some? && old(snap).value.phase == Ringing then Some(old(snap).value.(phase := Ended)) else old(snap)
    {
      if snap.Some? && snap.value.phase == Ringing { Finish(); }
    }

    method Dismiss()
      modifies this
      ensures View() == Step(old(View()), Event.Dismiss)
      ensures snap == (if old(snap).Some? && old(snap).value.phase == Ended then None else old(snap)) && log == old(log)
    {
      if snap.Some? && snap.value.phase == Ended { snap := None; }
    }

    /** What follows an awaited `waitForSignalling`. */
    method OnSocketReady(wait: WaitId, up: bool, ok: bool)
      requires wait in waits && !waits[wait].Ice?
      modifies this
      ensures View() == Step(old(View()), SocketReady(wait, up, ok))
      ensures old(waits)[wait].Declining? ==>
                log == old(log) + (if up then [Send(Msg.Decline, old(waits)[wait].call, ok)] else []) && snap == old(snap)
      ensures old(waits)[wait].Accepting? && old(IsCurrent(waits[wait].call)) ==>
                if up then |log| > |old(log)| && log[|old(log)|] == Send(Msg.Accept, old(waits)[wait].call, ok)
                else !IsBusy() && log == old(log) + EndingOf(old(View()))
      ensures old(waits)[wait].Accepting? && !old(IsCurrent(waits[wait].call)) ==> log == old(log) && snap == old(snap)
      ensures !up || ok ==> wait !in waits || waits[wait].Ice?
    {
      var w := waits[wait];
      waits := waits - {wait};
      match w {
        case Accepting(call, attempt) =>
          if up {
            AcceptRound(wait, call, attempt, ok);
          } else if IsCurrent(call) {
            Finish();
          }
        case Declining(call, left) => if up { SendDecline(wait, call, left, ok); }
        case Ice => {}
      }
    }

    /** `startPeer` after its `await`. */
    method OpenPeer(wait: WaitId)
      requires wait in waits && waits[wait].Ice?
      modifies this
      ensures View() == Step(old(View()), IceReady(wait))
      ensures pc <==> old(pc) || IsBusy()
      ensures snap == old(snap) && log == old(log)
      ensures waits == old(waits) - {wait}
    {
      waits := waits - {wait};
      if snap.None? || snap.value.phase == Ended || pc { return; }
      pc := true;
    }

    method OnAccepted(call: CallId, here: bool, wait: WaitId)
      requires wait !in waits
      modifies this
      ensures View() == Step(old(View()), GotAccepted(call, here, wait))
      ensures old(IsCurrent(call)) && old(snap).value.direction == Incoming && !here ==> !IsBusy()
      ensures !old(IsCurrent(call)) ==> View() == old(View())
      ensures old(IsCurrent(call)) && old(snap).value.phase == Calling && old(snap).value.direction == Outgoing ==>
                snap == Some(old(snap).value.(phase := Connecting)) && waits == old(waits)[wait := Ice] && log == old(log)
      ensures old(IsCurrent(call)) && old(snap).value.direction == Incoming && here ==> View() == old(View())
      ensures old(IsCurrent(call)) && old(snap).value.direction == Incoming && !here ==> log == old(log) + EndingOf(old(View()))
    {
      if !IsCurrent(call) { return; }
      if snap.value.direction == Incoming {
        if !here { Finish(); }
        return;
      }
      if snap.value.phase == Calling {
        snap := Some(snap.value.(phase := Connecting));
        waits := waits[wait := Ice];
      }
    }

    method OnEnded(call: CallId)
      modifies this
      ensures View() == Step(old(View()), GotEnded(call))
      ensures !IsCurrent(call)
      ensures !old(IsCurrent(call)) ==> View() == old(View())
      ensures old(IsCurrent(call)) ==> log == old(log) + EndingOf(old(View())) && snap == Some(old(snap).value.(phase := Ended))
    {
      if IsCurrent(call) { Finish(); }
    }

    method OnSignallingReconnected(ok: bool)
      modifies this`log
      ensures View() == Step(old(View()), SocketReconnected(ok))
      ensures log == old(log) + if old(snap).Some? && old(snap).value.phase in {Connecting, Active, Reconnecting} then [Send(Msg.Resume, old(snap).value.call, ok)] else []
    {
      if snap.Some? && (snap.value.phase == Connecting || snap.value.phase == Active || snap.value.phase == Reconnecting) {
        log := log + [Send(Resume, snap.value.call, ok)];
      }
    }

    method OnConnectionState(link: Link)
      requires pc
      modifies this
      ensures View() == Step(old(View()), LinkChanged(link))
      ensures old(IsBusy()) ==>
                snap == Some(old(snap).value.(phase := if link == Connected then Active else Reconnecting))
                && (reconnectTimer <==> link == Disconnected)
      ensures !old(IsBusy()) ==> View() == old(View())
    {
      if snap.None? || snap.value.phase == Ended { return; }
      if link == Connected {
        reconnectTimer := false;
        snap := Some(snap.value.(phase := Active));
      } else {
        EnterReconnecting();
      }
    }

    method EnterReconnecting()
      requires IsBusy()
      modifies this`snap, this`reconnectTimer
      ensures snap == Some(old(snap.value).(phase := Reconnecting)) && reconnectTimer
    {
      if snap.value.phase != Reconnecting { snap := Some(snap.value.(phase := Reconnecting)); }
      if !reconnectTimer { reconnectTimer := true; }
    }

    method OnReconnectTimeout(ok: bool)
      requires reconnectTimer
      modifies this
      ensures View() == Step(old(View()), ReconnectTimeout(ok))
      ensures snap.Some? ==> snap.value.phase != Reconnecting
      ensures old(snap).Some? && old(snap).value.phase == Reconnecting ==>
                log == old(log) + ([Send(Msg.End, old(snap).value.call, ok)] + EndingOf(old(View()))) && !IsBusy()
      ensures !(old(snap).Some? && old(snap).value.phase == Reconnecting) ==> View() == old(View())
    {
      if snap.None? || snap.value.phase != Reconnecting { return; }
      log := log + [Send(End, snap.value.call, ok)];
      Finish();
    }
  }
}

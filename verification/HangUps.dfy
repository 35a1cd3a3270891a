/**
 * A phone hangs up, and the server decides: `hangUp` of apps/mobile/src/calls/CallEngine.ts against
 * `hangUp` of apps/api/src/calls/call-signaling.service.ts. The phone goes by how far the call has got as
 * it knows; the server by the row.
 */
module HangUps {
  import opened Common
  import E = CallEngine
  import C = Calls

  /** The message as the server takes it. */
  function ActionOf(msg: E.Msg): Option<C.Action> {
    match msg
    case Decline => Some(C.Decline)
    case Cancel => Some(C.Cancel)
    case End => Some(C.End)
    case _ => None
  }

  /** The phone's current call is this row, and its user is the caller or the callee of it. */
  predicate OnPhoneOf(s: E.State, row: C.Call, user: C.UserId) {
    && E.Busy(s) && row.caller != row.callee
    && (if s.snap.value.direction == E.Outgoing then row.caller == user else row.callee == user && !row.silenced)
  }

  /** As far as the phone knows, nobody has answered: it rings here or there, or its own answer has not got
   *  out yet. */
  predicate Unanswered(s: E.State) {
    && E.Busy(s)
    && (s.snap.value.phase == E.Ringing || s.snap.value.phase == E.Calling
        || (s.snap.value.direction == E.Incoming && s.snap.value.phase == E.Connecting && !s.acceptSent))
  }

  /** Why a call ends that is hung up. */
  function ReasonFor(s: E.State, row: C.Call): C.Reason
    requires s.snap.Some?
  {
    if row.status == C.Active then C.Completed
    else if s.snap.value.direction == E.Outgoing then C.Cancelled
    else C.Declined
  }

  lemma PhaseHasDirection(canWait: bool, events: seq<E.Event>)
    requires E.ShownOnce(canWait, events) && E.Busy(E.Run(canWait, events))
    ensures var snap := E.Run(canWait, events).snap.value;
            && (snap.phase == E.Ringing ==> snap.direction == E.Incoming)
            && (snap.phase == E.Calling ==> snap.direction == E.Outgoing)
  {
    E.RunKeepsInv(canWait, events);
    var s := E.Run(canWait, events);
    assert E.CallOk(s, s.snap.value.call);
  }

  /** Over every run of a phone, and for any row its call can have: the message that hanging up sends ends
   *  the call, with the reason that fits, if and only if the row is not answered while the phone thinks it
   *  is not. So a hang-up that crosses an answer is lost, and no other is. */
  lemma HangUpEndsIff(canWait: bool, events: seq<E.Event>, wait: E.WaitId, ok: bool, row: C.Call, user: C.UserId)
    requires E.ShownOnce(canWait, events) && wait !in E.Run(canWait, events).waits
    requires OnPhoneOf(E.Run(canWait, events), row, user) && row.status != C.Ended
    ensures var s := E.Run(canWait, events);
            var said := E.DoHangUp(s, wait, ok).log[|s.log|];
            && |s.log| < |E.DoHangUp(s, wait, ok).log| && said.Send? && said.call == s.snap.value.call && said.ok == ok
            && ActionOf(said.msg).Some?
            && (C.EndsBy(row, user, ActionOf(said.msg).value, ReasonFor(s, row)) <==> !(row.status == C.Active && Unanswered(s)))
            && (row.status == C.Active && Unanswered(s) ==> C.Decide(row, user, ActionOf(said.msg).value) == None)
  {
    var s := E.Run(canWait, events);
    PhaseHasDirection(canWait, events);
    E.HangUpSays(s, wait, ok);
    assert E.DoHangUp(s, wait, ok).log[|s.log|] == E.Send(E.HangUpMsg(s.snap.value, s.acceptSent), s.snap.value.call, ok);
  }

  /** It happens: a caller hangs up while the row is already answered, and the server ignores the cancel. */
  lemma CancelCrossesAnswer(call: E.CallId, row: C.Call)
    requires row.status == C.Active && row.caller != row.callee
    ensures var s := E.Run(false, [E.StartOutgoing(call, true)]);
            && E.ShownOnce(false, [E.StartOutgoing(call, true)]) && OnPhoneOf(s, row, row.caller)
            && E.DoHangUp(s, 0, true).log == [E.Send(E.Invite, call, true), E.Send(E.Cancel, call, true), E.Finished(call)]
            && C.Decide(row, row.caller, C.Cancel) == None
  {
    E.RunOne(false, [], E.StartOutgoing(call, true));
    assert [] + [E.StartOutgoing(call, true)] == [E.StartOutgoing(call, true)];
    var s := E.Run(false, [E.StartOutgoing(call, true)]);
    E.HangUpSays(s, 0, true);
  }
}

# Verified model of the chat and calling core

This project models the state machines at the heart of the service and of its phone app, and proves
what they keep over every run. One file is one module:

- `RefreshTokens`: refresh-token families on the server; every statement of every request is a step.
- `MobileSession`: the phone's session manager: single-flight refresh, generations, and the queue of
  keystore mutations.
- `RotationProtocol`: the two together, with requests and answers on the way.
- `Calls`: the rows of 1:1 calls, changed by conditional updates that devices, nodes, sweeps and
  closing sockets race for.
- `CallHistory`: how an ended call becomes an entry of its conversation, over `Calls` and `MessageLog`.
- `CallEngine`: the phone's side of a call: what it puts on the socket, and when.
- `HangUps`: the phone's hang-up against the server's decision.
- `MessageLog`: the append transaction, idempotency keys, read positions and attachments.
- `MessagePaging`: gap sync and history pages over that log.
- `Presence`: expiring connections and the index of who is online, in Redis.
- `LoginBackoff`: the delay after failed sign-ins, and the number of guesses it allows.
- `SocketRegistry`: the three indexes over one node's sockets, and delivery through them.
- `Groups`: who administers a group.
- `DeviceCap` and `KeyPackages`: the key directory of end-to-end encryption.
- `UploadRaces`: uploads to it that run at the same time, statement by statement.
- `Common`: a few shared definitions.

Each state machine is a `State`, an `Event`, a total function `Step` (an event that cannot happen now
changes nothing), and `Run` over any sequence of events. An event is one SQL statement or transaction,
one Redis MULTI or script, or one stretch of code between two `await`s, so a run is an interleaving. An
invariant is proved for each event and then for all runs; the results follow from it. Beside it stands a
class with the source's own fields, whose methods are proved to take exactly those steps. What a State
carries beyond the source's data is history, and is named as such where it is declared.

Where the code does less than its comments say, the model follows the code, a lemma gives the run that
shows it, and another says exactly when the promise holds:

- `apps/api/src/auth/auth.service.ts:207-208` says that presenting a dead token ends the whole session.
  A rotation that has revoked its token and not yet inserted the next one survives it
  (`ReuseAlarmCanMissARotation`, `EndFamilyIsFinal`).
- `apps/api/src/db/refresh-tokens.ts:77-90` says that every session of a user ends, or every other one. A
  refresh or a sign-in that has yet to insert its token survives it (`UserOutlives`, `EndUserIsFinal`).
- `apps/mobile/src/auth/session.ts:331-333` says that nothing after a logout's first step can keep the
  user signed in. A refresh that starts behind it and reads the keystore before the queued clear does
  (`LogoutUndone`, `SignedOutForGoodIff`).
- `apps/api/src/db/conversations.ts:479-487` says that no group with members is without an admin. An add
  that was allowed before the only admin left, and lands afterwards, makes one
  (`LateAddLeavesNoAdmin`, `LosesAdminIffRefill`, `AdminUnlessRefilled`).
- `apps/api/src/e2ee/e2ee.service.ts:57-58` caps an account at ten devices. A device that lapses between
  being found current and being touched comes back on top of ten others
  (`ElevenAreReachable`, `PastTheCapIffLateTouch`).
- `apps/api/src/attachments/attachments.service.ts:413-415` deletes by id: a discard can take the file of
  a message that was sent meanwhile (`DiscardTakesASentFile`, `LinkIsForGoodIff`).
- `packages/shared/src/domain.ts:42-43` bounds the guesses in an hour. The bound of 19 holds, and is reached,
  for checks in series, and only for them (`NineteenAnHour`, `NineteenAreReached`,
  `NineteenIffOneAtATime`). With m of them under way at a time the most is known exactly (`GuessesIff`,
  `MostIsExact`), and without a limit on them there is none (`OverlappingChecksHaveNoBound`).
- `apps/api/src/db/e2ee.ts:122-123` keeps at most 200 key packages of a device. Uploads that run at the same
  time each trim what they see, and can leave 50 more for each of them but one (`BoundIsReached`, `BoundIff`,
  `LimitIffOneAtATime`).
- `apps/mobile/src/calls/CallEngine.ts:283` hangs up whatever state the call is in. A hang-up that crosses an
  answer is lost: the phone sends a cancel or a decline, and the server ignores those for an answered call
  (`CancelCrossesAnswer`, `HangUpEndsIff`).
- `apps/mobile/src/calls/CallEngine.ts:526-532` does not look at which call it opens a peer for
  (`LateIceOpensNextCall`, `UnansweredWithoutPeerIff`).
- `apps/mobile/src/calls/CallEngine.ts:247-256` shows a call again whose id it has shown before, so that it
  can be both refused and answered, or closed twice (`ShownAgainCanBeAnswered`, `SecondShowingIff`,
  `SecondClosingIff`).

Identifiers, hashes and random tokens are natural numbers that are new when they are handed out. Times are
integers in milliseconds, given with the event. `dafny verify dfyconfig.toml` checks the whole project.

## Model

| member | source | states |
|---|---|---|
| `RefreshTokens.RunKeepsInv` | `apps/api/src/auth/auth.service.ts:191-221` | every interleaving of the statements of sign-ins, refreshes, logouts and account-wide revokes keeps: token ids distinct, each family a chain in order of insertion, the live token the newest one, a family being rotated without a live token or a second rotation |
| `RefreshTokens.OneLiveOrRotating` | `apps/api/src/auth/auth.service.ts:200-214` | in every reachable state, live tokens of a family plus its rotations between revoke and insert number at most one |
| `RefreshTokens.OneSuccessor` | `apps/api/src/db/refresh-tokens.ts:35-49` | no two inserts over a whole run replace the same token: a family never forks |
| `RefreshTokens.DeadForever` | `apps/api/src/db/refresh-tokens.ts:67-75` | a family with no live token and no rotation in flight never has a live token again, whatever runs afterwards |
| `RefreshTokens.EndFamilyIsFinal` | `apps/api/src/db/refresh-tokens.ts:69-75` | revoking a family ends it for good if and only if no rotation of it was between its revoke and its insert |
| `RefreshTokens.RotationOutlives` | `apps/api/src/auth/auth.service.ts:209-214` | with such a rotation in flight, the family has a live token again one step after it was revoked |
| `RefreshTokens.EndUserIsFinal` | `apps/api/src/db/refresh-tokens.ts:77-103` | ending all sessions of a user, or all but one, ends for good those there are if and only if no refresh or sign-in of the user's in them was about to insert its token |
| `RefreshTokens.UserOutlives` | `apps/api/src/db/refresh-tokens.ts:80-103` | with such a refresh or sign-in in flight, the user has a live token again one step after all were revoked |
| `RefreshTokens.ReuseAlarmCanMissARotation` | `apps/api/src/auth/auth.service.ts:204-212` | a run in which a dead token is presented, the family is revoked, and the session still survives: the promise of the comment at lines 207-208 fails in this interleaving |
| `RefreshTokens.AuthServer.SignIn` | `apps/api/src/auth/auth.service.ts:178-188` | a sign-in opens a new family and is about to insert its first token; the new state is the specified step |
| `RefreshTokens.AuthServer.FindRefreshToken` | `apps/api/src/auth/auth.service.ts:192-198` | unknown and expired tokens are refused and change nothing |
| `RefreshTokens.AuthServer.RevokeRefreshToken` | `apps/api/src/db/refresh-tokens.ts:42-49` | exactly one of the callers racing for a token wins, and the losers go on to end the family |
| `RefreshTokens.AuthServer.IssueSession` | `apps/api/src/auth/auth.service.ts:422-450` | the insert adds one live token to the family the revoke came from, with its user and the expiry it was given |
| `RefreshTokens.AuthServer.FindForLogout` | `apps/api/src/auth/auth.service.ts:217-221` | a logout ends the family of the token it names, live or not |
| `RefreshTokens.AuthServer.RevokeFamily` | `apps/api/src/db/refresh-tokens.ts:69-75` | afterwards no row of the family is live and no other row has changed |
| `RefreshTokens.AuthServer.RevokeAllForUser` | `apps/api/src/db/refresh-tokens.ts:80-86` | afterwards no row of the user is live |
| `RefreshTokens.AuthServer.RevokeAllForUserExcept` | `apps/api/src/db/refresh-tokens.ts:89-103` | afterwards the user's live rows are those of the family that is kept |
| `MobileSession.RunKeepsInv` | `apps/mobile/src/auth/session.ts:126-262` | every interleaving of logins, refreshes, logouts and keystore steps keeps the queue's generations nondecreasing and ending in the current one, the keystore as its last mutation left it, and the signed-in state as installed last |
| `MobileSession.DrainedKeystore` | `apps/mobile/src/auth/session.ts:140-156` | whenever the queue is drained the keystore is as at launch, empty, or holds a token written by an operation of the current generation |
| `MobileSession.StaleNeverInstalls` | `apps/mobile/src/auth/session.ts:133-136` | an operation whose captured generation is no longer current installs no access token or user, over every continuation |
| `MobileSession.NoLateWrite` | `apps/mobile/src/auth/session.ts:140-156` | no write lands after the clear of a later sign-out, nor over the token of a newer sign-in |
| `MobileSession.SignedInIsRecent` | `apps/mobile/src/auth/session.ts:161-186` | access token and user are set together, and by an operation begun no earlier than the last sign-out or rejection |
| `MobileSession.SignedOutForGoodIff` | `apps/mobile/src/auth/session.ts:330-339` | a user who is signed out, at whatever moment of whatever run, stays signed out until the next sign-in if and only if the keystore is empty, no write that will go through is queued, and no operation of the current generation has a refresh request out or a session written |
| `MobileSession.StoredTokenWasGiven` | `apps/mobile/src/auth/session.ts:200-219` | over every run: what an operation wrote to the keystore is the refresh token of a session that the server's answer, or the sign-in, gave to that very operation; and so is every session that was put in place |
| `MobileSession.SignedInIsStored` | `apps/mobile/src/auth/session.ts:140-168` | whenever a user is signed in and the queue has drained, the keystore holds the refresh token of the very session in place, as it was given, or for a moment that of the operation that has just written |
| `MobileSession.LogoutUndone` | `apps/mobile/src/auth/session.ts:330-334` | a run in which a refresh begun after a logout, before its queued clear, signs the user in again: the comment at lines 331-333 fails there |
| `MobileSession.SessionManager.ClearLocal` | `apps/mobile/src/auth/session.ts:172-186` | the generation moves on and the session is gone before anything is awaited; the clear is queued behind every earlier mutation |
| `MobileSession.SessionManager.RefreshNow` | `apps/mobile/src/auth/session.ts:188-192` | callers join the refresh of their own generation; one of an older generation is never joined |
| `MobileSession.SessionManager.StoredRead` | `apps/mobile/src/auth/session.ts:194-199` | the read bypasses the queue; an empty keystore ends the session whatever generation the refresh captured |
| `MobileSession.SessionManager.RefreshAnswered` | `apps/mobile/src/auth/session.ts:200-213` | an answer to a stale refresh is handed back to be revoked, a current one is queued to be stored |
| `MobileSession.SessionManager.RefreshRejected` | `apps/mobile/src/auth/session.ts:220-226` | a rejection ends the session of the refresh's own generation only |
| `MobileSession.SessionManager.RefreshFailed` | `apps/mobile/src/auth/session.ts:226-228` | a network failure changes neither keystore nor session |
| `MobileSession.SessionManager.RunStorageQueue` | `apps/mobile/src/auth/session.ts:144-155` | keystore mutations run one at a time in order: a write re-checks its generation when its turn comes and stores its token, or is skipped; a clear reads what is stored and empties the keystore; whoever waits learns how it went |
| `MobileSession.SessionManager.AfterPersist` | `apps/mobile/src/auth/session.ts:214-219` | a session is installed only if its token was written and the generation still holds; otherwise its token is revoked |
| `MobileSession.SessionManager.AfterClear` | `apps/mobile/src/auth/session.ts:334-338` | a logout revokes the token its own clear found |
| `MobileSession.SessionManager.Start` | `apps/mobile/src/auth/session.ts:252-262` | a sign-in takes a generation of its own, and queues its refresh token to be stored under it; nothing else changes yet |
| `MobileSession.SessionManager.Logout` | `apps/mobile/src/auth/session.ts:330-334` | a logout ends the local session at once |
| `MobileSession.SessionManager.Settled` | `apps/mobile/src/auth/session.ts:229-231` | a settled refresh clears the in-flight slot only if it is its own |
| `RotationProtocol.SingleFlightKeepsAlarmSilent` | `apps/mobile/src/auth/session.ts:188-234` | client and server together, within one generation, with no lost answer and any number of callers: at most one refresh is unfinished, and the server's reuse branch is never taken nor pending |
| `RotationProtocol.PresentsTheLiveToken` | `apps/api/src/auth/auth.service.ts:191-215` | every refresh the server looks at presents the family's one live token |
| `RotationProtocol.LostAnswerRaisesAlarm` | `apps/mobile/src/auth/session.ts:226-228` | that no answer is lost is needed: after one, the next refresh presents a dead token |
| `RotationProtocol.LostAnswerFromRest` | `apps/mobile/src/auth/session.ts:200-228` | that situation is reached from any phone at rest by a single refresh: its answer is lost, and the next refresh raises the alarm |
| `RotationProtocol.RunKeepsInv` | `apps/api/src/auth/auth.service.ts:191-215` | the phases a refresh goes through on both sides, and the token each side holds in each of them, over every run |
| `Calls.RunKeepsInv` | `apps/api/src/db/calls.ts:47-162` | every interleaving of devices, nodes, sweeps and closing sockets keeps call rows coherent: a callee connection exactly when answered, end reasons that fit, connections of the right users, marks only of closed connections |
| `Calls.CallsOnlyAdvance` | `apps/api/src/db/calls.ts:45-83` | between any two moments of a run each call's status only moves ringing, active, ended or ringing, ended; an ended row never changes, nor do its parties, its silencing or its answer time |
| `Calls.AnnouncedOnce` | `apps/api/src/calls/call-signaling.service.ts:368-402` | exactly one step wins a call's end; the end is announced at most once, only for an ended call, and exactly once when nobody owes it any more |
| `Calls.SilencedStaysSilent` | `apps/api/src/calls/call-signaling.service.ts:158-179` | a call silenced by a block is never answered and never published on its callee's channel |
| `Calls.LostMeansGone` | `apps/api/src/db/calls.ts:148-160` | connection-lost is written only when a bound connection had been closed for longer than the grace |
| `Calls.LateCloseIsIgnored` | `apps/api/src/db/calls.ts:90-109` | a connection closes and its three updates run, each whenever it does and with any events in between: none of them touches a call that is bound to another connection at that moment |
| `Calls.MarksAreOfClosed` | `apps/api/src/db/calls.ts:100-131` | a disconnect mark is set only while the connection bound now is one that has closed, no later than the mark |
| `Calls.PeerIsInvolution` | `apps/api/src/db/calls.ts:164-172` | on an active call relaying goes from each of the two ends to the other, back again, and from nowhere else |
| `Calls.HangUpEnds` | `apps/api/src/calls/call-signaling.service.ts:259-283` | a decline, cancel or end that fits the call it sees, by who asks and its status, ends it with the reason that fits, whatever happens before its update, unless the status has changed by then; an answered call is over in any case |
| `Calls.HangUpOtherwise` | `apps/api/src/calls/call-signaling.service.ts:265-281` | one that does not fit asks for nothing |
| `Calls.InviteIsTold` | `apps/api/src/calls/call-signaling.service.ts:163-189` | an invite that is neither silenced nor for somebody busy reaches its callee |
| `Calls.BusyEnds` | `apps/api/src/calls/call-signaling.service.ts:174-177` | one for somebody busy ends as busy, unless it was answered or ended by then |
| `Calls.AcceptIsTold` | `apps/api/src/calls/call-signaling.service.ts:212-229` | the device that answers a ringing call gets it, and both users hear of it |
| `Calls.ResumeIsTold` | `apps/api/src/calls/call-signaling.service.ts:303-327` | a resume by the caller of an answered call binds the new connection, and tells it and the peer's |
| `Calls.EndIsTold` | `apps/api/src/calls/call-signaling.service.ts:376-393` | whoever won the end of a call announces it to both users, to the caller only if it is silenced |
| `Calls.CallSignaling.Invite` | `apps/api/src/calls/call-signaling.service.ts:163-189` | a new call rings, unless its id is taken; what is left to do is to tell the callee, or to end it as busy, or nothing if it is silenced |
| `Calls.CallSignaling.AcceptCall` | `apps/api/src/db/calls.ts:47-67` | the one device that answers a ringing, unsilenced call gets the row and is to tell both users; any other is to be told how the call stands |
| `Calls.CallSignaling.EndCall` | `apps/api/src/db/calls.ts:70-83` | the row comes back to exactly the caller that ended it |
| `Calls.CallSignaling.HangUp` | `apps/api/src/calls/call-signaling.service.ts:259-281` | something is left to do if and only if a party asks for what fits the status, with the reason that fits; no row changes yet |
| `Calls.CallSignaling.EndDecided` | `apps/api/src/calls/call-signaling.service.ts:174-177` | the UPDATE decided on earlier ends the call only if its status is still the one seen then |
| `Calls.CallSignaling.Tell` | `apps/api/src/calls/call-signaling.service.ts:216-228` | an accepted call is told to both users, a new one to the callee |
| `Calls.CallSignaling.TellLoserOf` | `apps/api/src/calls/call-signaling.service.ts:230-252` | a device that lost the race learns how the call stands, on its own connection |
| `Calls.CallSignaling.ResumeCall` | `apps/api/src/db/calls.ts:113-124` | a caller's resume of an active call rebinds their end and clears its mark; anything else changes no row |
| `Calls.CallSignaling.ResumeCallee` | `apps/api/src/db/calls.ts:125-131` | if the caller's update missed, a callee's rebinds theirs and clears its mark; anything else changes no row |
| `Calls.CallSignaling.AnswerResume` | `apps/api/src/calls/call-signaling.service.ts:307-326` | a resume is told to the two connections that were bound when its update returned the row; of a call that has ended, to the one that asked |
| `Calls.CallSignaling.CancelRinging` | `apps/api/src/db/calls.ts:95-99` | a closing socket cancels exactly the ringing calls placed from it |
| `Calls.CallSignaling.MarkCallerGone` | `apps/api/src/db/calls.ts:100-103` | active calls placed from the socket are marked, not ended |
| `Calls.CallSignaling.MarkCalleeGone` | `apps/api/src/db/calls.ts:104-107` | active calls answered on the socket are marked, not ended |
| `Calls.CallSignaling.EndUnanswered` | `apps/api/src/db/calls.ts:143-147` | no call is left ringing past the ring timeout; those ended are missed, and no other row changes |
| `Calls.CallSignaling.EndLost` | `apps/api/src/db/calls.ts:148-160` | no active call is left with its caller or its callee gone past the grace; those ended are lost, and no other row changes |
| `Calls.CallSignaling.AnnounceEnded` | `apps/api/src/calls/call-signaling.service.ts:376-393` | an announcement uses up the win it is for, and tells both users, or the caller only of a silenced call |
| `CallHistory.OutcomeTellsWhoAnswered` | `apps/api/src/calls/call-history.service.ts:14-30` | on every ended call of every run the outcome is known, completed exactly when answered, declined exactly when refused: neither the fallback nor the default is taken |
| `CallHistory.OneEntryPerCall` | `apps/api/src/calls/call-history.service.ts:136-146` | however often and concurrently a call is recorded, it has at most one entry under its key, by its caller, in its conversation, for a call that is over and was shown |
| `CallHistory.SecondRecordIsSilent` | `apps/api/src/calls/call-history.service.ts:106-110` | recording a call that has its entry changes nothing, even after its caller left |
| `CallHistory.EntriesStay` | `apps/api/src/db/messages.ts:333-348` | an entry keeps its place, author and key through everything that follows |
| `CallHistory.EntriesAreOfShownCalls` | `apps/api/src/calls/call-history.service.ts:82-87` | every call entry belongs to one recordable call, and none to a silenced one |
| `CallHistory.RunKeepsInv` | `apps/api/src/calls/call-history.service.ts:82-161` | calls, conversations and the recording between them keep all their invariants together over every run |
| `CallHistory.CallHistoryService.Record` | `apps/api/src/calls/call-history.service.ts:82-87` | silenced calls and those without an outcome are not recorded |
| `CallHistory.CallHistoryService.AppendEntry` | `apps/api/src/calls/call-history.service.ts:120-149` | the entry goes in under the call's key; that of a missed call moves no read position but its author's, any other asks for the callee's position to reach exactly it; a caller who is no longer a member is found out |
| `CallHistory.CallHistoryService.CheckCallee` | `apps/api/src/calls/call-history.service.ts:151-158` | an entry without an author is tried only if the callee is still a member |
| `CallHistory.CallHistoryService.AppendSystemEntry` | `apps/api/src/calls/call-history.service.ts:159-160` | that entry is always committed, unless the conversation is gone |
| `CallEngine.OneWayOut` | `apps/mobile/src/calls/CallEngine.ts:207-299` | for each call shown on a phone, over every run: at most one decline, cancel or end gets out, never an accept and a decline, at most three tries at either, stats and the end once |
| `CallEngine.PendingRefusalIsTheOnlyOne` | `apps/mobile/src/calls/CallEngine.ts:270-281` | a decline still to be retried belongs to a call for which nothing else got out and which has no second retry |
| `CallEngine.NoAcceptAfterTheEnd` | `apps/mobile/src/calls/CallEngine.ts:228-243` | once a call is over on this phone, no accept for it goes out |
| `CallEngine.NothingOutlivesTheCall` | `apps/mobile/src/calls/CallEngine.ts:598-683` | the reconnect timer runs only while the current call is reconnecting, and a peer connection exists only during a call |
| `CallEngine.SentWithGrounds` | `apps/mobile/src/calls/CallEngine.ts:163-323` | over every run, each message sent or tried, and each end reported, has its ground in the event and the state it came from: an invite in starting, an accept in answering, a decline in refusing a call not answered here, a cancel in hanging up one that is calling, an end in hanging up or giving up one that is past that |
| `CallEngine.CancelledOrEnded` | `apps/mobile/src/calls/CallEngine.ts:284-299` | over every run, a cancel goes out only for an outgoing call that nobody has answered as far as the phone has heard, and an end only for a call that was answered, by either side, or for which a peer was opened too early |
| `CallEngine.HangUpSays` | `apps/mobile/src/calls/CallEngine.ts:284-299` | hanging up sends exactly one message, the one that fits how far the call has got, and ends the call |
| `CallEngine.ShownAgainCanBeAnswered` | `apps/mobile/src/calls/CallEngine.ts:247-256` | a run showing that a call id must not be shown twice: both a decline and an accept go out |
| `CallEngine.SecondShowingIff` | `apps/mobile/src/calls/CallEngine.ts:247-256` | a call that is over is shown again: whatever follows, it is not both answered and refused, if and only if neither an accept nor a decline of it got out before and none still waits for the socket |
| `CallEngine.SecondClosingIff` | `apps/mobile/src/calls/CallEngine.ts:247-299` | a call that is over is shown again: whatever follows, the server hears once at most that it is off, by decline, cancel or end, if and only if it has not heard so before and no refusal still waits for the socket |
| `CallEngine.LateIceOpensNextCall` | `apps/mobile/src/calls/CallEngine.ts:526-532` | a run in which the ICE servers of an ended call open a peer connection for the next call while it still rings |
| `CallEngine.UnansweredWithoutPeerIff` | `apps/mobile/src/calls/CallEngine.ts:526-532` | for a call that rings, here or at the other end, without a peer connection: none is opened while it keeps ringing, whatever follows, if and only if no ICE servers asked for earlier are awaited |
| `CallEngine.RunKeepsInv` | `apps/mobile/src/calls/CallEngine.ts:207-299` | the invariant behind these: what each call's log says before, while and after it is the current one, and what each wait may still do |
| `CallEngine.Engine.StartOutgoing` | `apps/mobile/src/calls/CallEngine.ts:163-204` | refused while a call is going on; otherwise the call is shown and the invite sent |
| `CallEngine.Engine.PresentIncoming` | `apps/mobile/src/calls/CallEngine.ts:247-256` | reports whether the call is the one on screen |
| `CallEngine.Engine.Accept` | `apps/mobile/src/calls/CallEngine.ts:207-225` | answering starts only from ringing, and waits for the socket if it can |
| `CallEngine.Engine.AcceptRound` | `apps/mobile/src/calls/CallEngine.ts:229-243` | one try at the accept: out, retried, or the call failed |
| `CallEngine.Engine.SendDecline` | `apps/mobile/src/calls/CallEngine.ts:274-281` | a decline that did not go out is left for another try, while there are tries |
| `CallEngine.Engine.Decline` | `apps/mobile/src/calls/CallEngine.ts:264-268` | a ringing call is refused and over |
| `CallEngine.Engine.HangUp` | `apps/mobile/src/calls/CallEngine.ts:284-299` | whatever the state, the call is over: a decline while it rings here or its answer is not out, a cancel while it rings there, an end after that, then the stats of a peer and one end; a decline that did not go out waits for the socket |
| `CallEngine.Engine.OnSocketReady` | `apps/mobile/src/calls/CallEngine.ts:222-238` | a resumed accept or decline is sent for the call it was for, if the socket came up; without it an accept gives the call up |
| `CallEngine.Engine.OpenPeer` | `apps/mobile/src/calls/CallEngine.ts:526-532` | a peer is opened for whichever call is current |
| `CallEngine.Engine.OnAccepted` | `apps/mobile/src/calls/CallEngine.ts:470-485` | answered elsewhere ends the call here; an outgoing call starts its peer |
| `CallEngine.Engine.OnEnded` | `apps/mobile/src/calls/CallEngine.ts:397-401` | the server's word ends the current call and no other |
| `CallEngine.Engine.OnConnectionState` | `apps/mobile/src/calls/CallEngine.ts:575-596` | connected makes the call active and stops the timer, disconnected makes it reconnecting and starts it |
| `CallEngine.Engine.OnReconnectTimeout` | `apps/mobile/src/calls/CallEngine.ts:603-609` | a call still reconnecting is ended |
| `CallEngine.Engine.Finish` | `apps/mobile/src/calls/CallEngine.ts:664-673` | stats only for a call that had a peer, and one end |
| `HangUps.HangUpEndsIff` | `apps/api/src/calls/call-signaling.service.ts:259-283` | over every run of a phone, and for any row its call can have: what the phone sends when it hangs up ends the call on the server, for the reason that fits, if and only if the row is not answered while the phone thinks it is not |
| `HangUps.CancelCrossesAnswer` | `apps/mobile/src/calls/CallEngine.ts:293-296` | a caller who hangs up while the row is already answered sends a cancel, which the server ignores |
| `MessageLog.LogIsGapFree` | `apps/api/src/db/messages.ts:77-164` | in every reachable state a conversation's seqs are exactly 1 to lastSeq in commit order, (sender, key) is unique, and every read position lies in 0..lastSeq |
| `MessageLog.RunKeepsInv` | `apps/api/src/db/messages.ts:77-164` | over commits, rollbacks, edits, deletes, read marks, uploads, sweeps and account erasure |
| `MessageLog.RetryReturnsOriginal` | `apps/api/src/db/messages.ts:81-93` | the key of a committed message answers for good with that message, or with a conflict if used for anything else, and changes nothing either way; a retry whose lookup came before the commit is stopped by the unique index and changes nothing |
| `MessageLog.RowsStay` | `apps/api/src/db/messages.ts:333-348` | no row is ever removed, renumbered, moved or re-attributed |
| `MessageLog.MessageSaysWhatWasSent` | `apps/api/src/db/messages.ts:95-164` | every message of every run was sent by one event, with this sender, key and kind, as the next in its conversation; while it lives it says what was sent or what its last edit put there, and nothing else changes that; once deleted it says nothing |
| `MessageLog.ReadIsReached` | `apps/api/src/conversations/conversations.service.ts:302-312` | a member's read mark reaches what was asked for, clamped to the log as it was, unless the position is further already, whatever happens before it is written |
| `MessageLog.UnreadIsReached` | `apps/api/src/conversations/conversations.service.ts:333-341` | marking as unread leaves at least the latest message, as it was then, unread, and never moves the position forward |
| `MessageLog.FileGoneIffDiscarded` | `apps/api/src/db/messages.ts:146-148` | over every run, a live image or file message has exactly one file, processed and its sender's, unless the history of the run has a discard that deleted it after it was linked |
| `MessageLog.LinkIsForGoodIff` | `apps/api/src/attachments/attachments.service.ts:413-415` | a live message keeps its file for as long as it lives, over every continuation, if and only if no request that was preparing this upload is still running |
| `MessageLog.LinkedFileStays` | `apps/api/src/db/attachments.ts:65-86` | no sweep, and no step but a discard, a deletion of the message or its author's erasure, takes a linked file |
| `MessageLog.DiscardTakesASentFile` | `apps/api/src/attachments/attachments.service.ts:413-415` | a run in which a discard, deleting by id, takes the file of a message that was sent |
| `MessageLog.ConversationStore.AppendMessage` | `apps/api/src/db/messages.ts:77-164` | every failure leaves the log, lastSeq, files and read positions as they were; success adds exactly one row, the message as it was sent under the next number, links its file and moves its sender's read position |
| `MessageLog.ConversationStore.InsertMessage` | `apps/api/src/db/messages.ts:95-164` | the statements after a lookup that found nothing, however long ago: the row is the message as it was sent, under the next number; a key taken since then fails at the unique index, and every failure rolls back all of them |
| `MessageLog.ConversationStore.LinkAttachment` | `apps/api/src/db/attachments.ts:39-56` | links a processed, unlinked file, and only then |
| `MessageLog.ConversationStore.EditMessageBody` | `apps/api/src/db/messages.ts:309-331` | a live message gets the new text, and nothing else changes |
| `MessageLog.ConversationStore.SoftDeleteMessage` | `apps/api/src/db/messages.ts:338-348` | a deleted message stays as a tombstone, once |
| `MessageLog.ConversationStore.AskRead` | `apps/api/src/conversations/conversations.service.ts:302-311` | the position to write is clamped into 0..lastSeq; a conversation that is unknown, or not the user's, is refused and changes nothing |
| `MessageLog.ConversationStore.AskUnread` | `apps/api/src/conversations/conversations.service.ts:333-339` | a conversation that is unknown, not the user's, or without messages is refused and changes nothing |
| `MessageLog.ConversationStore.WriteReadPosition` | `apps/api/src/db/conversations.ts:583-632` | a read mark raises the position to what was asked for, an unread mark lowers it to that, and neither moves it the other way |
| `MessageLog.ConversationStore.MarkAttachmentProcessed` | `apps/api/src/db/attachments.ts:22-34` | processing marks the row if it is still there, and never moves a link |
| `MessageLog.ConversationStore.DiscardAttachment` | `apps/api/src/attachments/attachments.service.ts:413-415` | a discard deletes by id, linked or not |
| `MessageLog.ConversationStore.DeleteStaleUnsent` | `apps/api/src/db/attachments.ts:69-86` | only unlinked rows older than the cutoff are deleted |
| `MessagePaging.AfterPageIsExact` | `apps/api/src/db/messages.ts:227-241` | a gap-sync page is exactly the next messages, and hasMore is exact, multiples of the page size included |
| `MessagePaging.BeforePageIsExact` | `apps/api/src/db/messages.ts:201-218` | a history page is exactly the messages before the cursor, oldest first, and hasMore is exact |
| `MessagePaging.SyncOne` | `apps/web/src/features/chat/gapSync.ts:32-54` | the loop collects the rows after the last seq received, each once, in order and exactly as the page it came with saw it, up to lastSeq as the final page saw it, unless it stops at the page ceiling with 5000 messages; the log may grow between pages |
| `MessagePaging.SyncLive` | `apps/web/src/features/chat/gapSync.ts:32-54` | so, for pages read at any moments of any run, what is collected are the messages of that run: same sender, key, kind and number as in its final log |
| `MessagePaging.LoadHistory` | `apps/api/src/db/messages.ts:186-218` | paging back, while the log may grow, shows the rows the conversation held when it was opened, each as its page saw it, and stops exactly when there are no more |
| `MessagePaging.ScrollLive` | `apps/api/src/db/messages.ts:186-218` | so, for pages read at any moments of any run, what is shown are the messages of that run, each once and in order, up to those there were at the first page |
| `MessagePaging.LoadStillHistory` | `apps/api/src/db/messages.ts:186-218` | of a log that stands still, paging back gives the exact history |
| `MessagePaging.LaterReadsReachFurther` | `apps/api/src/db/messages.ts:109-113` | a later state of any run has every message of an earlier one in the same place, with the same sender, key, kind and number, and new ones only behind them |
| `MessagePaging.ViewsGrow` | `apps/api/src/db/messages.ts:109-113` | so what requests at successive moments of a run see is gap-free and grows |
| `MessagePaging.OlderPagesStay` | `apps/api/src/db/messages.ts:201-218` | appends, edits and tombstones between two history pages leave the older one with the same messages and the same hasMore |
| `Presence.LiveMeansOnline` | `apps/api/src/realtime/presence.service.ts:82-87` | at any clock and with stale now arguments, an unexpired connection's user is in the index with a score that covers it |
| `Presence.LeavingMeansGone` | `apps/api/src/realtime/presence.service.ts:50-77` | whatever step takes a user out, none of their connections is unexpired, and it records exactly that departure |
| `Presence.OneOwnerPerDeparture` | `apps/api/src/realtime/presence.service.ts:89-92` | arrivals minus departures is one while the user is online and zero otherwise: each departure has one owner |
| `Presence.ScoreIsLastTouch` | `apps/api/src/realtime/presence.service.ts:120-151` | a user's score is one TTL past the latest connect or refresh of their stay |
| `Presence.SweepRecordsLastTouch` | `apps/api/src/realtime/presence.service.ts:63-77` | so what a sweep records as last seen is that time |
| `Presence.SweepTakesOut` | `apps/api/src/realtime/presence.service.ts:70-77` | a sweep takes a user out exactly when no connection is live at its now; at the current time that includes every user whose score has passed |
| `Presence.LapseLosesNothing` | `apps/api/src/realtime/presence.service.ts:128-128` | when Redis drops a user's key, every connection in it had expired |
| `Presence.ConnectionStays` | `apps/api/src/realtime/presence.service.ts:120-151` | a connection keeps its place, and its user stays online, for as long as it has not expired, whatever other connections, sweeps and lapsing keys do |
| `Presence.RunKeepsInv` | `apps/api/src/realtime/presence.service.ts:57-77` | the invariant behind these, over every interleaving with a nondecreasing clock |
| `Presence.PresenceService.Connect` | `apps/api/src/realtime/presence.service.ts:120-135` | the MULTI of a connect, and when it was the first live connection |
| `Presence.PresenceService.RefreshAll` | `apps/api/src/realtime/presence.service.ts:138-151` | one heartbeat refreshes every connection of the node in one step |
| `Presence.PresenceService.Disconnect` | `apps/api/src/realtime/presence.service.ts:57-61` | wins exactly when it takes the user out |
| `Presence.PresenceService.SweepScript` | `apps/api/src/realtime/presence.service.ts:70-77` | returns the score exactly when it takes the user out |
| `Presence.PresenceService.Sweep` | `apps/api/src/realtime/presence.service.ts:172-191` | an undisturbed sweep takes out exactly the users whose score is due and who have no live connection; nobody scored before now is left, nobody else is touched |
| `LoginBackoff.NineteenAnHour` | `packages/shared/src/domain.ts:38-43` | at most 19 wrong passwords are checked in any closed hour without a sign-in in between, for an account in any state, checks in series, window resets included |
| `LoginBackoff.TwelveAnHour` | `packages/shared/src/domain.ts:42-43` | at most 12 in a half-open hour whose first check leaves nine failures standing |
| `LoginBackoff.NineteenAreReached` | `packages/shared/src/domain.ts:42-45` | the bound of 19 is reached |
| `LoginBackoff.OverlappingChecksHaveNoBound` | `apps/api/src/auth/auth.service.ts:168-178` | there is no bound but by how many checks can be under way: any number that read a clean row before the first failure is recorded all pass the gate |
| `LoginBackoff.GuessesIff` | `apps/api/src/auth/auth.service.ts:168-178` | with at most m checks under way at a time: no hour of any run, from any row, sees more than m + n wrong passwords checked if and only if the soonest check that can have seen n + 1 failures comes after the hour |
| `LoginBackoff.MostIsExact` | `apps/api/src/auth/auth.service.ts:168-178` | the most there can be: 19 for one check at a time, 32 for two, 44 for three, and 13 m + 4 for m from four on; no run checks more in any closed hour, and one from a clean row checks as many |
| `LoginBackoff.NineteenIffOneAtATime` | `packages/shared/src/domain.ts:38-45` | the promise of 19 wrong passwords an hour holds of every run if and only if there is never more than one check under way |
| `LoginBackoff.NineteenForEachInFlight` | `apps/api/src/auth/auth.service.ts:168-178` | with at most m checks under way at a time, at most 19 m wrong passwords are checked in any closed hour, over every interleaving and from any row; at most 14 m from eight at a time on |
| `LoginBackoff.CrowdRunKeepsInv` | `apps/api/src/auth/auth.service.ts:149-178` | each check that passed the gate read the row after all failures but those of fewer than m checks before it, over every interleaving |
| `LoginBackoff.SeriesIsOneAtATime` | `apps/api/src/auth/auth.service.ts:168-178` | a series is such a run with one check at a time, with the same starts, failures and row |
| `LoginBackoff.DelayTable` | `apps/api/src/db/users.ts:174-179` | the delays: none up to the fourth failure, 30 s, 1, 2 and 4 minutes, then 5 minutes each |
| `LoginBackoff.StartingOverTakesAnHour` | `apps/api/src/db/users.ts:164-167` | a failure that starts the count over puts more than an hour between its neighbours |
| `LoginBackoff.RunKeepsInv` | `apps/api/src/auth/auth.service.ts:149-178` | the failed checks since the last sign-in are a series, each past the delay of the one before, over every run |
| `LoginBackoff.Account.RecordFailedLogin` | `apps/api/src/db/users.ts:161-183` | one UPDATE from the row as it was; however many failures there were, the gate is open again five minutes later |
| `LoginBackoff.Account.ResetFailedLogins` | `apps/api/src/db/users.ts:185-195` | the row is clean |
| `LoginBackoff.Account.Login` | `apps/api/src/auth/auth.service.ts:168-188` | signed in if and only if the gate is open and the password correct, which leaves a clean row; wrong if and only if the gate is open and it is not, which is recorded; refused otherwise, without counting, and told the least whole number of seconds after which the gate is open |
| `SocketRegistry.IndexesAgreeWithScan` | `apps/api/src/realtime/realtime.service.ts:118-176` | in every reachable registry each of the three indexes finds exactly the sockets that a scan of all of them would, and keeps no empty set |
| `SocketRegistry.RegisterAgreesIff` | `apps/api/src/realtime/realtime.service.ts:119-128` | a registration leaves the indexes in agreement with a scan if and only if no other socket has the connection id and a socket registered before is the same user's, loses no conversation and keeps its connection |
| `SocketRegistry.SameSocketsSameIndexes` | `apps/api/src/realtime/realtime.service.ts:92-94` | the indexes are determined by the sockets: no history of operations shows in them |
| `SocketRegistry.UnregisterUndoesRegister` | `apps/api/src/realtime/realtime.service.ts:119-138` | unregistering a socket restores the registry there was before it |
| `SocketRegistry.GoneWithoutTrace` | `apps/api/src/realtime/realtime.service.ts:130-138` | a socket that is gone is found on no channel |
| `SocketRegistry.RemovedHearsNothing` | `apps/api/src/realtime/realtime.service.ts:158-176` | a removed member's sockets stop hearing that conversation and nothing else; everyone else hears what they did |
| `SocketRegistry.AddToSetMap` | `apps/api/src/realtime/realtime.service.ts:284-291` | adds to one key's set only, and keeps no empty set |
| `SocketRegistry.RemoveFromSetMap` | `apps/api/src/realtime/realtime.service.ts:293-298` | removes from one key's set only, and keeps no empty set |
| `SocketRegistry.Registry.Register` | `apps/api/src/realtime/realtime.service.ts:119-128` | the indexes after any socket registered, for the first time or again, and exactly when they are in agreement |
| `SocketRegistry.Registry.Unregister` | `apps/api/src/realtime/realtime.service.ts:130-138` | the indexes after any socket is gone, in agreement; one that is not registered, or no longer, changes nothing |
| `SocketRegistry.Registry.AddConversationForUser` | `apps/api/src/realtime/realtime.service.ts:149-156` | exactly the user's sockets hear of one more conversation |
| `SocketRegistry.Registry.RemoveConversationForUser` | `apps/api/src/realtime/realtime.service.ts:169-176` | exactly the user's sockets hear of it no more |
| `SocketRegistry.Registry.DeliverLocally` | `apps/api/src/realtime/realtime.service.ts:238-266` | the open sockets a scan would find get the message once, no other socket gets anything, and only the end of a session closes sockets, with its own code |
| `Groups.AdminUnlessRefilled` | `apps/api/src/db/conversations.ts:479-487` | over every run, a group with an active member has an active admin if and only if those members were not added after everyone had left |
| `Groups.AlwaysAnAdmin` | `apps/api/src/db/conversations.ts:488-537` | so while every add finds someone in the group, there is always an admin |
| `Groups.LosesAdminIffRefill` | `apps/api/src/db/conversations.ts:417-447` | from any reachable state in which every group with a member has an admin, a step ends that if and only if it is an add that takes effect in a group nobody is in any more |
| `Groups.LateAddLeavesNoAdmin` | `apps/api/src/conversations/conversations.service.ts:191-203` | a run in which an add checked before its admin left leaves a group without one |
| `Groups.LeavePromotesTheOldest` | `apps/api/src/db/conversations.ts:507-535` | promotion happens exactly when the last admin leaves others behind, makes one who joined first the only admin, and changes nobody else |
| `Groups.DeletedIsOutForGood` | `apps/api/src/users/account.service.ts:76-86` | a deleted account is in no group, ever again |
| `Groups.RunKeepsInv` | `apps/api/src/db/conversations.ts:337-357` | the invariant behind these, over every sequence of transactions |
| `Groups.GroupStore.CreateGroup` | `apps/api/src/db/conversations.ts:337-357` | a group starts with its creator as the only admin, or not at all if someone was deleted |
| `Groups.GroupStore.AskAddMembers` | `apps/api/src/conversations/conversations.service.ts:186-191` | only an admin may ask |
| `Groups.GroupStore.AddGroupMembers` | `apps/api/src/db/conversations.ts:417-447` | returns who was added: plain members who joined now, none of them deleted or there before; everyone else's row is untouched, and if nobody was deleted all those asked for are in |
| `Groups.GroupStore.OldestMember` | `apps/api/src/db/conversations.ts:521-527` | a member who joined no later than any other |
| `Groups.GroupStore.LeaveConversation` | `apps/api/src/db/conversations.ts:488-537` | the statements of a leave amount to the specified one, with a successor the query may return |
| `Groups.GroupStore.LeaveGroup` | `apps/api/src/conversations/conversations.service.ts:230-267` | leaving and being removed are the same transaction |
| `Groups.GroupStore.DeleteAccount` | `apps/api/src/users/account.service.ts:76-86` | the leaves of an account, group by group, amount to one step after which it is in no group |
| `DeviceCap.NeverMoreThanTen` | `apps/api/src/e2ee/e2ee.service.ts:57-70` | through registering, ageing, reviving and removing no account has more than ten current devices, as long as a device found current is still current when it is touched |
| `DeviceCap.PastTheCapIffLateTouch` | `apps/api/src/e2ee/e2ee.service.ts:237-243` | a step leaves the cap if and only if it is such a late touch, of an account with ten other current devices |
| `DeviceCap.ElevenAreReachable` | `apps/api/src/db/e2ee.ts:41-57` | a run that ends with eleven current devices |
| `DeviceCap.DeviceDirectory.RegisterDevice` | `apps/api/src/e2ee/e2ee.service.ts:59-70` | registers exactly while there is room |
| `DeviceCap.DeviceDirectory.RequireDevice` | `apps/api/src/db/e2ee.ts:94-112` | a removed device, or someone else's, is unknown |
| `DeviceCap.DeviceDirectory.TouchDevice` | `apps/api/src/db/e2ee.ts:41-57` | at most once an hour |
| `DeviceCap.DeviceDirectory.ReviveDevice` | `apps/api/src/e2ee/e2ee.service.ts:244-252` | comes back exactly while there is room |
| `DeviceCap.DeviceDirectory.RevokeDevice` | `apps/api/src/db/e2ee.ts:61-85` | afterwards the device is not current |
| `DeviceCap.DeviceDirectory.RevokeOtherDevices` | `apps/api/src/e2ee/e2ee.service.ts:92-99` | afterwards at most the kept device is current |
| `KeyPackages.HandedOutOnce` | `apps/api/src/db/e2ee.ts:181-185` | over any interleaving of claims, uploads, rollbacks and removals a one-time package is handed out at most once, for the device that uploaded it, and is gone |
| `KeyPackages.ClaimsAreDisjoint` | `apps/api/src/db/e2ee.ts:195-210` | two claims under way never hold the same package |
| `KeyPackages.LastResortOnlyWhenDry` | `apps/api/src/db/e2ee.ts:183-220` | whatever a committed claim handed out, over every run: a last-resort package only if at the moment of its first statement other claims held all one-time packages of the device, and then the one the device had at its second statement; otherwise the oldest one-time package no other claim then held |
| `KeyPackages.LastResortStays` | `apps/api/src/db/e2ee.ts:214-221` | handing a last-resort package out does not use it up |
| `KeyPackages.NeverMoreThanTwoHundred` | `apps/api/src/db/e2ee.ts:146-156` | no device ever has more than 200 one-time packages, with each upload as one step |
| `KeyPackages.UploadKeepsTheNewest` | `apps/api/src/db/e2ee.ts:122-158` | an upload leaves the newest 200, or all if fewer, of that device, and touches no other device or claim |
| `KeyPackages.RemovedHasNothing` | `apps/api/src/db/e2ee.ts:79-83` | a device that is removed, with no claim holding any of its packages, has no package left, one-time or last-resort, and gets none but by an upload of its own |
| `KeyPackages.RunKeepsInv` | `apps/api/src/db/e2ee.ts:124-223` | the invariant behind these |
| `KeyPackages.KeyDirectory.AddKeyPackages` | `apps/api/src/db/e2ee.ts:124-158` | insert, replace, trim and count in one transaction, which waits for a claim that holds a row it would delete |
| `KeyPackages.KeyDirectory.NewestOf` | `apps/api/src/db/e2ee.ts:150-155` | the newest 200 |
| `KeyPackages.KeyDirectory.OldestOf` | `apps/api/src/db/e2ee.ts:201-204` | a package no newer than any other of them |
| `KeyPackages.KeyDirectory.TakeOneTime` | `apps/api/src/db/e2ee.ts:195-210` | takes the oldest free package of each device that has one |
| `KeyPackages.KeyDirectory.ReadLastResorts` | `apps/api/src/db/e2ee.ts:214-220` | reads the last-resort packages of the others |
| `KeyPackages.KeyDirectory.CommitClaim` | `apps/api/src/e2ee/e2ee.service.ts:125-141` | its caller gets one package per device, one-time where there was one |
| `KeyPackages.KeyDirectory.AbortClaim` | `apps/api/src/e2ee/e2ee.service.ts:115-128` | a claim that rolls back frees every package it held, and changes nothing else in the directory |
| `UploadRaces.BoundIff` | `apps/api/src/db/e2ee.ts:122-158` | with at most m uploads of a device under way at a time, each an insert, a trim and a commit under READ COMMITTED: a bound on its one-time packages holds of every run if and only if it is at least 200 and 50 more for each upload but one |
| `UploadRaces.LimitIffOneAtATime` | `apps/api/src/db/e2ee.ts:122-123` | the limit of 200 holds of every run if and only if a device never has two uploads under way |
| `UploadRaces.FewOverTheLimit` | `apps/api/src/db/e2ee.ts:122-158` | the upper half of that bound, over every interleaving of uploads, rollbacks, claims and removals |
| `UploadRaces.BoundIsReached` | `apps/api/src/e2ee/e2ee.service.ts:79-81` | a run of m uploads at once that trim the same oldest packages, and leave as many |
| `UploadRaces.RunKeepsInv` | `apps/api/src/db/e2ee.ts:146-156` | the invariant behind these: nothing is committed but what the last trim kept and what those under way at that trim have added since |

## Left out

- Announcements of presence: who is told, and in which order; the comment at `apps/api/src/realtime/presence.service.ts:89-95` that the last word is always the current state is not claimed, since the re-announcement can be delayed.
- Keystore calls that fail, listeners, and the expiry that `getAccessToken` looks at, in the session manager.
- `RotationProtocol.SingleFlightKeepsAlarmSilent`: supposes that no answer is lost, which is shown to be needed, and that the token presented has not expired: an expired one is refused with a 401, which ends the generation the claim is about.
- `MobileSession.SignedInIsStored`: supposes that the stretch behind an awaited write runs before the next keystore call returns, as it does where a promise's continuation waits for nothing else.
- `HangUps.HangUpEndsIff`: is about any row a phone's call can have, not about a joint run of phone and server.
- The busy check of an invite, which is made before its insert: nothing is claimed about how many open calls a user has; whether the callee was busy is an input.
- An accept or an invite that lands after its own socket has closed is never marked; nothing is claimed about every call ending.
- Relayed offers, answers, candidates and media states, `call.ringing` on the server, and pushes for calls: published or not, they change no row.
- Duration and wording of a call entry: it stands for its outcome; and the publishing of the entry.
- A second entry without an author, if a call is recorded twice after its caller left: the source accepts it, and uniqueness is claimed for entries under the call's key only.
- `CallHistory.CallHistoryService.AppendEntry`: its lookup by key and the statements after it are one step; apart, they change the same (`MessageLog.LateAppendIsAppend`), and what becomes of a record that meets the unique index instead is left out.
- Mentions, reactions, replies, link previews, pins, drafts, search and the direct-conversation key: single-row changes with no property across operations.
- Media, negotiation and quality in the call engine: the peer is there or not; only the signalling log is claimed.
- The size limit of a group, which is checked before the transaction that adds.
- `Groups.AdminUnlessRefilled`: holds for transactions as atomic steps, not for leaves whose statements interleave under READ COMMITTED.
- `DeviceCap.NeverMoreThanTen`: takes the account's advisory lock at its word; welcomes and groups of the key directory are left out.
- `KeyPackages.KeyDirectory.TakeOneTime`: a row locked by an upload's trim is not skipped, since an upload is one step.
- `KeyPackages.NeverMoreThanTwoHundred`: holds for uploads as atomic steps; what uploads at the same time leave is the subject of `UploadRaces`, which takes one device and leaves its last-resort package and the locks of its rows out.
- `LoginBackoff.MostIsExact`: counts wrong passwords until someone signs in.
- `KeyPackages.KeyDirectory.AddKeyPackages`: is asked to be given invariants that every run keeps; the order of packages uploaded at the same moment is open.
- The power in the back-off is exact; its overflow in Postgres after some thousand failures is not modelled.
- Clock differences between the database and the nodes, except for stale arguments in presence.
- The wildcard subscription and the other nodes, of the socket registry.
- Group calls, mail, image and voice processing, push delivery, HTTP plumbing, validation schemas and user interfaces.

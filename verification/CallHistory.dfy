/**
 * How an ended call becomes an entry of its conversation
 * (apps/api/src/calls/call-history.service.ts), over the call rows of module Calls and the log of
 * module MessageLog.
 *
 * `record` may be started any number of times for a call, and its steps interleave with every other
 * step on calls and conversations. The row it is given is the one the call ended with: an ended row
 * does not change again.
 */
module CallHistory {
  import opened Common
  import C = Calls
  import L = MessageLog

  type RecordId = nat

  /** `outcome` of a `call` message. */
  datatype Entry = MissedCall | DeclinedCall | CompletedCall

  /** Where an unfinished `record` stands. */
  datatype Stage = Appending(call: C.CallId) | CheckingCallee(call: C.CallId) | AppendingAsSystem(call: C.CallId)

  /** A call entry that was committed. */
  datatype Posting = Posting(call: C.CallId, message: L.MsgId, asSystem: bool)

  datatype World = World(calls: C.State, log: L.State, stages: map<RecordId, Stage>, postings: seq<Posting>)

  const Empty := World(C.Empty, L.Empty, map[], [])

  datatype Event =
    | OnCalls(step: C.Event)
    | OnLog(change: L.Event)
    | Record(record: RecordId, call: C.CallId)
    | Post(record: RecordId, read: L.OpId)
    | CheckCallee(record: RecordId)
    | PostAsSystem(record: RecordId, read: L.OpId)

  /** `callOutcome`. */
  function CallOutcome(c: C.Call): Option<Entry> {
    match c.endReason
    case None => None
    case Some(reason) =>
      match reason
      case Missed => Some(MissedCall)
      case Cancelled => Some(MissedCall)
      case Busy => Some(MissedCall)
      case Declined => Some(DeclinedCall)
      case Completed => Some(if c.answeredAt.Some? then CompletedCall else MissedCall)
      case ConnectionLost => Some(if c.answeredAt.Some? then CompletedCall else MissedCall)
      case Unavailable => None
  }

  /** Stands for `callSummaryText`. */
  function Summary(e: Entry): nat {
    match e
    case MissedCall => 0
    case DeclinedCall => 1
    case CompletedCall => 2
  }

  predicate Recordable(c: C.Call) {
    c.status == C.Ended && !c.silenced && CallOutcome(c).Some?
  }

  function EntryInput(id: C.CallId, c: C.Call, asSystem: bool): L.Input
    requires CallOutcome(c).Some?
  {
    L.Input(c.conversation, if asSystem then None else Some(c.caller), Some(Summary(CallOutcome(c).value)),
            L.CallEntry, if asSystem then None else Some(L.CallKey(id)), None)
  }

  /** What the send endpoint refuses: a reserved key. Only the server writes call entries. */
  predicate Reserved(i: L.Input) {
    i.kind == L.CallEntry || (i.key.Some? && i.key.value.CallKey?)
  }

  /** The append of one entry. Unless the call was missed, the callee's read position is to follow. */
  function Posted(w: World, record: RecordId, id: C.CallId, asSystem: bool, read: L.OpId): World
    requires id in w.calls.rows && Recordable(w.calls.rows[id])
  {
    var c := w.calls.rows[id];
    var i := EntryInput(id, c, asSystem);
    match L.Outcome(w.log, i)
    case Created(m) =>
      var log := L.Append(w.log, i);
      w.(log := if CallOutcome(c) == Some(MissedCall) then log
                else log.(pending := log.pending[read := L.MarkRead(c.conversation, c.callee, log.messages[m].seqNo)]),
         stages := w.stages - {record},
         postings := w.postings + [Posting(id, m, asSystem)])
    case NotAMember => w.(stages := w.stages[record := CheckingCallee(id)])
    case _ => w.(stages := w.stages - {record})
  }

  /** The call a record is about, if it is in a stage to post it. */
  predicate MayPost(w: World, record: RecordId, read: L.OpId) {
    && record in w.stages
    && w.stages[record].call in w.calls.rows && Recordable(w.calls.rows[w.stages[record].call])
    && read !in w.log.pending
  }

  function Step(w: World, l: C.Limits, e: Event): World {
    match e
    case OnCalls(e) => w.(calls := C.Step(w.calls, l, e))
    case OnLog(e) => if e.Send? && Reserved(e.input) then w else w.(log := L.Step(w.log, e))
    case Record(r, id) =>
      if r in w.stages || id !in w.calls.rows || !Recordable(w.calls.rows[id]) then w
      else w.(stages := w.stages[r := Appending(id)])
    case Post(r, read) =>
      if MayPost(w, r, read) && w.stages[r].Appending? then Posted(w, r, w.stages[r].call, false, read) else w
    case CheckCallee(r) =>
      if r !in w.stages || !w.stages[r].CheckingCallee? || w.stages[r].call !in w.calls.rows then w
      else
        var c := w.calls.rows[w.stages[r].call];
        if L.IsMember(w.log, c.conversation, c.callee)
        then w.(stages := w.stages[r := AppendingAsSystem(w.stages[r].call)])
        else w.(stages := w.stages - {r})
    case PostAsSystem(r, read) =>
      if MayPost(w, r, read) && w.stages[r].AppendingAsSystem? then Posted(w, r, w.stages[r].call, true, read) else w
  }

  function Run(l: C.Limits, events: seq<Event>): World {
    if events == [] then Empty else Step(Run(l, events[..|events| - 1]), l, events[|events| - 1])
  }

  // ---- the invariant -------------------------------------------------------------------------------

  /** Message `m` is the entry of call `id`, under its key if the caller is its author. */
  predicate IsEntryOf(w: World, m: L.MsgId, id: C.CallId, asSystem: bool) {
    && m < |w.log.messages|
    && id in w.calls.rows && Recordable(w.calls.rows[id])
    && w.log.messages[m].kind == L.CallEntry
    && w.log.messages[m].conversation == w.calls.rows[id].conversation
    && w.log.messages[m].sender == (if asSystem then None else Some(w.calls.rows[id].caller))
    && w.log.messages[m].key == (if asSystem then None else Some(L.CallKey(id)))
  }

  predicate IsPosted(postings: seq<Posting>, m: L.MsgId) {
    exists i :: 0 <= i < |postings| && postings[i].message == m
  }

  predicate IsCallRow(m: L.Message) {
    m.kind == L.CallEntry || (m.key.Some? && m.key.value.CallKey?)
  }

  /** The call entries are exactly what was posted, each for one call that is over and not silenced. */
  ghost predicate PostingsOk(w: World) {
    && (forall i | 0 <= i < |w.postings| :: IsEntryOf(w, w.postings[i].message, w.postings[i].call, w.postings[i].asSystem))
    && (forall m | 0 <= m < |w.log.messages| && IsCallRow(w.log.messages[m]) :: IsPosted(w.postings, m))
    && (forall i, j | 0 <= i < j < |w.postings| :: w.postings[i].message != w.postings[j].message)
  }

  ghost predicate StagesOk(w: World) {
    forall r | r in w.stages :: w.stages[r].call in w.calls.rows && Recordable(w.calls.rows[w.stages[r].call])
  }

  ghost predicate Inv(w: World, l: C.Limits) {
    C.Inv(w.calls, l) && L.Inv(w.log) && PostingsOk(w) && StagesOk(w)
  }

  // ---- every step keeps it -------------------------------------------------------------------------

  lemma CallStepKeepsInv(w: World, l: C.Limits, e: C.Event)
    requires Inv(w, l)
    ensures Inv(Step(w, l, OnCalls(e)), l)
  {
    var v := Step(w, l, OnCalls(e));
    C.StepKeepsInv(w.calls, l, e);
    C.StepIsBetter(w.calls, l, e);
    forall id | id in w.calls.rows ensures id in v.calls.rows && C.Advances(w.calls.rows[id], v.calls.rows[id]) {
      assert C.Better(w.calls.rows[id], v.calls.rows[id], v.calls.closed, l);
    }
    forall i | 0 <= i < |v.postings|
      ensures IsEntryOf(v, v.postings[i].message, v.postings[i].call, v.postings[i].asSystem)
    {
      assert IsEntryOf(w, w.postings[i].message, w.postings[i].call, w.postings[i].asSystem);
    }
  }

  lemma LogStepKeepsPostings(w: World, e: L.Event)
    requires PostingsOk(w) && !(e.Send? && Reserved(e.input))
    ensures PostingsOk(w.(log := L.Step(w.log, e)))
  {
    var v := w.(log := L.Step(w.log, e));
    L.StepExtends(w.log, e);
    forall i | 0 <= i < |v.postings|
      ensures IsEntryOf(v, v.postings[i].message, v.postings[i].call, v.postings[i].asSystem)
    {
      assert IsEntryOf(w, w.postings[i].message, w.postings[i].call, w.postings[i].asSystem);
    }
    forall m | 0 <= m < |v.log.messages| && IsCallRow(v.log.messages[m]) ensures IsPosted(v.postings, m) {
      if m < |w.log.messages| {
        assert IsCallRow(w.log.messages[m]);
      }
    }
  }

  /** One message more, posted as the entry of its call. */
  lemma AddPosting(w: World, v: World, row: L.Message, p: Posting)
    requires PostingsOk(w) && v.calls == w.calls
    requires v.log.messages == w.log.messages + [row] && v.postings == w.postings + [p]
    requires p.message == |w.log.messages| && IsEntryOf(v, p.message, p.call, p.asSystem)
    ensures PostingsOk(v)
  {
    forall i | 0 <= i < |v.postings|
      ensures IsEntryOf(v, v.postings[i].message, v.postings[i].call, v.postings[i].asSystem)
      ensures i < |w.postings| ==> v.postings[i].message < p.message
    {
      if i < |w.postings| {
        assert IsEntryOf(w, w.postings[i].message, w.postings[i].call, w.postings[i].asSystem);
      }
    }
    forall m | 0 <= m < |v.log.messages| && IsCallRow(v.log.messages[m]) ensures IsPosted(v.postings, m) {
      if m < |w.log.messages| {
        assert IsCallRow(w.log.messages[m]);
        var i :| 0 <= i < |w.postings| && w.postings[i].message == m;
        assert v.postings[i] == w.postings[i];
      } else {
        assert v.postings[|w.postings|].message == m;
      }
    }
  }

  lemma PostKeepsPostings(w: World, record: RecordId, id: C.CallId, asSystem: bool, read: L.OpId)
    requires PostingsOk(w) && id in w.calls.rows && Recordable(w.calls.rows[id])
    ensures PostingsOk(Posted(w, record, id, asSystem, read))
  {
    var v := Posted(w, record, id, asSystem, read);
    if L.Outcome(w.log, EntryInput(id, w.calls.rows[id], asSystem)).Created? {
      AddPosting(w, v, v.log.messages[|w.log.messages|], Posting(id, |w.log.messages|, asSystem));
    } else {
      SamePostings(w, v);
    }
  }

  /** An entry is an ordinary message to the log. */
  lemma EntryKeepsLog(s: L.State, id: C.CallId, c: C.Call, asSystem: bool)
    requires L.Inv(s) && CallOutcome(c).Some?
    ensures L.Inv(L.Append(s, EntryInput(id, c, asSystem)))
  {
    L.AppendKeepsInv(s, EntryInput(id, c, asSystem));
  }

  lemma PostKeepsLog(w: World, record: RecordId, id: C.CallId, asSystem: bool, read: L.OpId)
    requires L.Inv(w.log) && id in w.calls.rows && Recordable(w.calls.rows[id]) && read !in w.log.pending
    ensures L.Inv(Posted(w, record, id, asSystem, read).log)
  {
    var c := w.calls.rows[id];
    var log := L.Append(w.log, EntryInput(id, c, asSystem));
    var t := Posted(w, record, id, asSystem, read).log;
    EntryKeepsLog(w.log, id, c, asSystem);
    if t != log {
      PostedAsks(w, record, id, asSystem, read);
      PendingReadKeepsInv(log, t, read);
    }
  }

  /** What a new entry asks of the log besides itself. */
  lemma PostedAsks(w: World, record: RecordId, id: C.CallId, asSystem: bool, read: L.OpId)
    requires id in w.calls.rows && Recordable(w.calls.rows[id])
    ensures var c := w.calls.rows[id];
            var log := L.Append(w.log, EntryInput(id, c, asSystem));
            var t := Posted(w, record, id, asSystem, read).log;
            t == log || (c.conversation in log.lastSeq
                         && t == log.(pending := log.pending[read := L.MarkRead(c.conversation, c.callee, log.lastSeq[c.conversation])]))
  {
  }

  lemma PendingReadKeepsInv(s: L.State, t: L.State, op: L.OpId)
    requires L.Inv(s) && op in t.pending && t.pending[op].MarkRead?
    requires t == s.(pending := s.pending[op := t.pending[op]])
    requires t.pending[op].conversation in s.lastSeq && t.pending[op].to <= s.lastSeq[t.pending[op].conversation]
    ensures L.Inv(t)
  {
    L.EditKeepsSeqs(s, t);
    L.ShrinkKeepsLinks(s, t);
    L.KeptFilesPresent(s, t);
  }

  lemma LogStepKeepsInv(w: World, l: C.Limits, e: L.Event)
    requires Inv(w, l)
    ensures Inv(Step(w, l, OnLog(e)), l)
  {
    if !(e.Send? && Reserved(e.input)) {
      L.StepKeepsInv(w.log, e);
      LogStepKeepsPostings(w, e);
    }
  }

  lemma PostKeepsInv(w: World, l: C.Limits, record: RecordId, asSystem: bool, read: L.OpId)
    requires Inv(w, l) && MayPost(w, record, read)
    ensures Inv(Posted(w, record, w.stages[record].call, asSystem, read), l)
  {
    PostKeepsLog(w, record, w.stages[record].call, asSystem, read);
    PostKeepsPostings(w, record, w.stages[record].call, asSystem, read);
    PostKeepsStages(w, record, w.stages[record].call, asSystem, read);
  }

  lemma PostKeepsStages(w: World, record: RecordId, id: C.CallId, asSystem: bool, read: L.OpId)
    requires StagesOk(w) && id in w.calls.rows && Recordable(w.calls.rows[id])
    ensures StagesOk(Posted(w, record, id, asSystem, read)) && Posted(w, record, id, asSystem, read).calls == w.calls
  {
  }

  lemma StageKeepsInv(w: World, l: C.Limits, v: World)
    requires Inv(w, l) && v == w.(stages := v.stages) && StagesOk(v)
    ensures Inv(v, l)
  {
    SamePostings(w, v);
  }

  lemma StepKeepsInv(w: World, l: C.Limits, e: Event)
    requires Inv(w, l)
    ensures Inv(Step(w, l, e), l)
  {
    match e
    case OnCalls(e) => CallStepKeepsInv(w, l, e);
    case OnLog(e) => LogStepKeepsInv(w, l, e);
    case Post(r, read) =>
      if MayPost(w, r, read) && w.stages[r].Appending? { PostKeepsInv(w, l, r, false, read); }
    case PostAsSystem(r, read) =>
      if MayPost(w, r, read) && w.stages[r].AppendingAsSystem? { PostKeepsInv(w, l, r, true, read); }
    case Record(_, _) => StageKeepsInv(w, l, Step(w, l, e));
    case CheckCallee(_) => StageKeepsInv(w, l, Step(w, l, e));
  }

  lemma SamePostings(w: World, v: World)
    requires PostingsOk(w) && v == w.(stages := v.stages)
    ensures PostingsOk(v)
  {
    forall i | 0 <= i < |v.postings|
      ensures IsEntryOf(v, v.postings[i].message, v.postings[i].call, v.postings[i].asSystem)
    {
      assert IsEntryOf(w, w.postings[i].message, w.postings[i].call, w.postings[i].asSystem);
    }
  }

  lemma {:induction false} RunKeepsInv(l: C.Limits, events: seq<Event>)
    ensures Inv(Run(l, events), l)
  {
    if events != [] {
      RunKeepsInv(l, events[..|events| - 1]);
      StepKeepsInv(Run(l, events[..|events| - 1]), l, events[|events| - 1]);
    }
  }

  // ---- what holds over every run -------------------------------------------------------------------

  /** On a call that is over, the outcome is always known: `completed` exactly when someone answered,
   *  `declined` exactly when the callee refused, `missed` otherwise. Neither the "not answered" fallback
   *  nor the default is ever taken. */
  lemma OutcomeTellsWhoAnswered(l: C.Limits, events: seq<C.Event>, id: C.CallId)
    requires C.HasEndedRow(C.Run(l, events), id)
    ensures var c := C.Run(l, events).rows[id];
            && CallOutcome(c).Some?
            && (CallOutcome(c) == Some(CompletedCall) <==> c.answeredAt.Some?)
            && (CallOutcome(c) == Some(DeclinedCall) <==> c.endReason == Some(C.Declined))
            && (CallOutcome(c) == Some(CompletedCall) <==> c.endReason in {Some(C.Completed), Some(C.ConnectionLost)})
  {
    C.RunKeepsInv(l, events);
    var s := C.Run(l, events);
    assert C.RowOk(s.rows[id], s.closed, l);
  }

  predicate HasCallKey(t: L.Table, m: L.MsgId, id: C.CallId) {
    m < |t| && t[m].key == Some(L.CallKey(id))
  }

  /** However often and however concurrently `record` runs, a call has at most one entry under its
   *  key; it is its caller's, in its conversation, and the call is over and was shown to the callee. */
  lemma OneEntryPerCall(l: C.Limits, events: seq<Event>, id: C.CallId, m: L.MsgId)
    requires HasCallKey(Run(l, events).log.messages, m, id)
    ensures var w := Run(l, events);
            && id in w.calls.rows && Recordable(w.calls.rows[id])
            && w.log.messages[m].sender == Some(w.calls.rows[id].caller)
            && w.log.messages[m].conversation == w.calls.rows[id].conversation
            && w.log.messages[m].kind == L.CallEntry
            && (forall k | HasCallKey(w.log.messages, k, id) :: k == m)
  {
    RunKeepsInv(l, events);
    var w := Run(l, events);
    KeyIsEntry(w, m, id);
    forall k | HasCallKey(w.log.messages, k, id) ensures k == m {
      KeyIsEntry(w, k, id);
      L.KeyNamesOne(w.log.messages, m, w.calls.rows[id].caller, L.CallKey(id));
      L.KeyNamesOne(w.log.messages, k, w.calls.rows[id].caller, L.CallKey(id));
    }
  }

  lemma KeyIsEntry(w: World, m: L.MsgId, id: C.CallId)
    requires PostingsOk(w) && HasCallKey(w.log.messages, m, id)
    ensures IsEntryOf(w, m, id, false)
  {
    assert IsCallRow(w.log.messages[m]);
    var i :| 0 <= i < |w.postings| && w.postings[i].message == m;
    assert IsEntryOf(w, m, w.postings[i].call, w.postings[i].asSystem);
  }

  /** Its key answers for a call that has its entry. */
  lemma EntryIsFound(w: World, m: L.MsgId, id: C.CallId)
    requires IsEntryOf(w, m, id, false) && L.KeysUnique(w.log.messages)
    ensures L.Outcome(w.log, EntryInput(id, w.calls.rows[id], false)) == L.Existing(m)
  {
    L.KeyNamesOne(w.log.messages, m, w.calls.rows[id].caller, L.CallKey(id));
  }

  /** Once the entry is there, recording the call again changes nothing in the conversation, even if
   *  its caller has left since. */
  lemma SecondRecordIsSilent(l: C.Limits, events: seq<Event>, id: C.CallId, m: L.MsgId, record: RecordId, read: L.OpId)
    requires HasCallKey(Run(l, events).log.messages, m, id)
    requires record in Run(l, events).stages && Run(l, events).stages[record] == Appending(id)
    ensures Step(Run(l, events), l, Post(record, read)).log == Run(l, events).log
    ensures Step(Run(l, events), l, Post(record, read)).postings == Run(l, events).postings
  {
    var w := Run(l, events);
    RunKeepsInv(l, events);
    KeyIsEntry(w, m, id);
    EntryIsFound(w, m, id);
  }

  lemma StepKeepsEntries(w: World, l: C.Limits, e: Event)
    ensures L.Extends(w.log.messages, Step(w, l, e).log.messages)
  {
    if e.OnLog? { L.StepExtends(w.log, e.change); }
  }

  lemma ExtendsOn(t: L.Table, u: L.Table, v: L.Table)
    requires L.Extends(t, u) && L.Extends(u, v)
    ensures L.Extends(t, v)
  {
  }

  /** An entry stays in the log, whatever happens afterwards. */
  lemma {:induction false} EntriesStay(l: C.Limits, before: seq<Event>, more: seq<Event>)
    ensures L.Extends(Run(l, before).log.messages, Run(l, before + more).log.messages)
  {
    if more == [] {
      assert before + more == before;
    } else {
      var init := before + more[..|more| - 1];
      assert (before + more)[..|before + more| - 1] == init;
      EntriesStay(l, before, more[..|more| - 1]);
      StepKeepsEntries(Run(l, init), l, more[|more| - 1]);
      ExtendsOn(Run(l, before).log.messages, Run(l, init).log.messages, Run(l, before + more).log.messages);
    }
  }

  /** The whole history of call entries: every one is the posting of one recordable call, and no
   *  message of a silenced call exists. */
  lemma EntriesAreOfShownCalls(l: C.Limits, events: seq<Event>, m: L.MsgId)
    requires m < |Run(l, events).log.messages| && Run(l, events).log.messages[m].kind == L.CallEntry
    ensures exists id, asSystem :: IsEntryOf(Run(l, events), m, id, asSystem)
    ensures forall p | p in Run(l, events).postings ::
              p.call in Run(l, events).calls.rows && !Run(l, events).calls.rows[p.call].silenced
  {
    RunKeepsInv(l, events);
    var w := Run(l, events);
    assert IsPosted(w.postings, m);
    var i :| 0 <= i < |w.postings| && w.postings[i].message == m;
    assert IsEntryOf(w, m, w.postings[i].call, w.postings[i].asSystem);
    forall p | p in w.postings ensures p.call in w.calls.rows && !w.calls.rows[p.call].silenced {
      var k :| 0 <= k < |w.postings| && w.postings[k] == p;
      assert IsEntryOf(w, p.message, p.call, p.asSystem);
    }
  }

  /** A missed call stays unread: its entry moves nobody's read position but its author's, and asks for
   *  no other. The entry of any other call asks for the callee's position to reach exactly it. */
  predicate StaysUnread(before: L.State, after: L.State, c: C.Call, read: L.OpId) {
    && (forall k | k in before.members && k != (c.conversation, c.caller) ::
          k in after.members && after.members[k] == before.members[k])
    && (CallOutcome(c) == Some(MissedCall) ==> after.pending == before.pending)
    && (CallOutcome(c) != Some(MissedCall) ==>
          c.conversation in after.lastSeq
          && after.pending == before.pending[read := L.MarkRead(c.conversation, c.callee, after.lastSeq[c.conversation])])
  }

  lemma MissedCallStaysUnread(w: World, l: C.Limits, record: RecordId, read: L.OpId)
    requires MayPost(w, record, read) && w.stages[record].Appending?
    requires L.Outcome(w.log, EntryInput(w.stages[record].call, w.calls.rows[w.stages[record].call], false)).Created?
    ensures StaysUnread(w.log, Step(w, l, Post(record, read)).log, w.calls.rows[w.stages[record].call], read)
  {
  }

  /** The entry of a call, under its caller's name and its own key, or without an author: it tells the call's
   *  outcome, and is the next message of the call's conversation. */
  predicate EntryAdded(before: L.State, messages: L.Table, id: C.CallId, c: C.Call, asSystem: bool) {
    && CallOutcome(c).Some? && c.conversation in before.lastSeq
    && messages == before.messages + [L.Message(
         c.conversation, before.lastSeq[c.conversation] + 1,
         if asSystem then None else Some(c.caller), if asSystem then None else Some(L.CallKey(id)),
         L.CallEntry, Some(Summary(CallOutcome(c).value)), false)]
  }

  lemma AppendAddsEntry(before: L.State, id: C.CallId, c: C.Call, asSystem: bool)
    requires CallOutcome(c).Some? && L.Outcome(before, EntryInput(id, c, asSystem)).Created?
    ensures EntryAdded(before, L.Append(before, EntryInput(id, c, asSystem)).messages, id, c, asSystem)
  {
  }

  // ---- the service itself --------------------------------------------------------------------------

  /** Each method is one stretch of `record` between two `await`s. */
  class CallHistoryService {
    const limits: C.Limits
    const calls: C.CallSignaling
    const store: L.ConversationStore
    var stages: map<RecordId, Stage>
    var postings: seq<Posting>

    ghost predicate Valid()
      reads this, store, calls
    {
      calls.limits == limits && StagesOk(View())
    }

    ghost function View(): World
      reads this, store, calls
    {
      World(calls.View(), store.View(), stages, postings)
    }

    constructor (calls: C.CallSignaling, store: L.ConversationStore)
      ensures Valid() && this.calls == calls && this.store == store
      ensures stages == map[] && postings == []
    {
      this.limits, this.calls, this.store := calls.limits, calls, store;
      stages, postings := map[], [];
    }

    /** `record` up to its first `await`. */
    method Record(record: RecordId, id: C.CallId)
      requires Valid() && record !in stages && id in calls.rows && calls.rows[id].status == C.Ended
      modifies this
      ensures Valid() && View() == Step(old(View()), limits, Event.Record(record, id))
      ensures record in stages <==> !calls.rows[id].silenced && CallOutcome(calls.rows[id]).Some?
      ensures stages == if !calls.rows[id].silenced && CallOutcome(calls.rows[id]).Some? then old(stages)[record := Appending(id)] else old(stages)
      ensures postings == old(postings)
    {
      var c := calls.rows[id];
      if c.silenced || c.endReason.None? { return; }
      var outcome := CallOutcome(c);
      if outcome.None? { return; }
      stages := stages[record := Appending(id)];
    }

    /** The first append: under the caller's name and the call's key. */
    method AppendEntry(record: RecordId, read: L.OpId) returns (r: L.Result)
      requires Valid() && record in stages && stages[record].Appending? && read !in store.pending
      modifies this, store
      ensures Valid() && View() == Step(old(View()), limits, Post(record, read))
      ensures r.Created? <==> postings != old(postings)
      ensures !r.Created? ==> store.View() == old(store.View())
      ensures r.Created? ==> StaysUnread(old(store.View()), store.View(), calls.rows[old(stages)[record].call], read)
      ensures var id := old(stages)[record].call;
              var c := calls.rows[id];
              r.Created? ==>
                && EntryAdded(old(store.View()), store.messages, id, c, false)
                && stages == old(stages) - {record} && postings == old(postings) + [Posting(id, r.id, false)]
      ensures r.NotAMember? ==> stages == old(stages)[record := CheckingCallee(old(stages)[record].call)]
      ensures !r.Created? && !r.NotAMember? ==> stages == old(stages) - {record}
    {
      var id := stages[record].call;
      var c := calls.rows[id];
      ghost var before := View();
      r := store.AppendMessage(EntryInput(id, c, false));
      match r {
        case Created(m) =>
          Conclude(record, id, c, m, false, read);
          MissedCallStaysUnread(before, limits, record, read);
          AppendAddsEntry(before.log, id, c, false);
        case NotAMember => stages := stages[record := CheckingCallee(id)];
        case _ => stages := stages - {record};
      }
    }

    /** The caller has left: an entry without an author, if the callee is still there to read it. */
    method CheckCallee(record: RecordId) returns (reads_: bool)
      requires Valid() && record in stages && stages[record].CheckingCallee?
      modifies this
      ensures Valid() && View() == Step(old(View()), limits, Event.CheckCallee(record))
      ensures reads_ <==> record in stages
      ensures var id := old(stages)[record].call;
              var k := (calls.rows[id].conversation, calls.rows[id].callee);
              && (reads_ <==> k in store.members && store.members[k].active)
              && stages == if reads_ then old(stages)[record := AppendingAsSystem(id)] else old(stages) - {record}
    {
      var id := stages[record].call;
      var c := calls.rows[id];
      var k := (c.conversation, c.callee);
      reads_ := k in store.members && store.members[k].active;
      if reads_ {
        stages := stages[record := AppendingAsSystem(id)];
      } else {
        stages := stages - {record};
      }
    }

    method AppendSystemEntry(record: RecordId, read: L.OpId) returns (r: L.Result)
      requires Valid() && record in stages && stages[record].AppendingAsSystem? && read !in store.pending
      modifies this, store
      ensures Valid() && View() == Step(old(View()), limits, PostAsSystem(record, read))
      ensures r.Created? || r.NoConversation?
      ensures var id := old(stages)[record].call;
              var c := calls.rows[id];
              r.Created? ==>
                && EntryAdded(old(store.View()), store.messages, id, c, true)
                && postings == old(postings) + [Posting(id, r.id, true)]
      ensures stages == old(stages) - {record}
    {
      var id := stages[record].call;
      var c := calls.rows[id];
      ghost var before := store.View();
      r := store.AppendMessage(EntryInput(id, c, true));
      if r.Created? {
        AppendAddsEntry(before, id, c, true);
        Conclude(record, id, c, r.id, true, read);
      } else {
        stages := stages - {record};
      }
    }

    /** After a new entry: unless the call was missed, it is no news to the callee. */
    method Conclude(record: RecordId, id: C.CallId, c: C.Call, m: L.MsgId, asSystem: bool, read: L.OpId)
      requires m < |store.messages|
      modifies this, store`pending
      ensures stages == old(stages) - {record} && postings == old(postings) + [Posting(id, m, asSystem)]
      ensures store.pending == if CallOutcome(c) == Some(MissedCall) then old(store.pending)
                else old(store.pending)[read := L.MarkRead(c.conversation, c.callee, store.messages[m].seqNo)]
    {
      stages := stages - {record};
      postings := postings + [Posting(id, m, asSystem)];
      if CallOutcome(c) != Some(MissedCall) {
        store.pending := store.pending[read := L.MarkRead(c.conversation, c.callee, store.messages[m].seqNo)];
      }
    }
  }
}

/**
 * The conversation log (apps/api/src/db/messages.ts, apps/api/src/db/attachments.ts, and the read
 * positions of apps/api/src/db/conversations.ts and
 * apps/api/src/conversations/conversations.service.ts).
 *
 * An append is one transaction: it holds the conversation's row lock from the seq it takes to its
 * commit, so transactions of one conversation are steps in commit order. Everything that reads first
 * and writes later (read positions, attachment processing) is two steps.
 */
module MessageLog {
  import opened Common

  type ConvId = nat
  type UserId = nat
  type MsgId = nat
  type FileId = nat
  type OpId = nat

  /** An idempotency key. The prefix of the second kind is reserved: the send schema refuses it. */
  datatype Key = ClientKey(text: nat) | CallKey(call: nat)

  datatype Kind = Text | Image | File | System | CallEntry

  /** One row of `messages`; its id is its place in the table. */
  datatype Message = Message(
    conversation: ConvId,
    seqNo: nat,
    sender: Option<UserId>,
    key: Option<Key>,
    kind: Kind,
    body: Option<nat>,
    deleted: bool)

  type Table = seq<Message>

  datatype Member = Member(active: bool, lastReadSeq: nat)

  /** One row of `attachments`. */
  datatype Attachment = Attachment(
    uploader: UserId,
    conversation: ConvId,
    kind: Kind,
    createdAt: int,
    processed: bool,
    message: Option<MsgId>)

  /** What a request decided from a row it read, still to be written. */
  datatype Pending =
    | MarkRead(conversation: ConvId, user: UserId, to: nat)
    | MarkUnread(conversation: ConvId, user: UserId, to: nat)
    | Processing(file: FileId)

  /** `lost` is history: the messages whose linked attachment a later `discard` deleted. */
  datatype State = State(
    lastSeq: map<ConvId, nat>,
    messages: Table,
    members: map<(ConvId, UserId), Member>,
    files: map<FileId, Attachment>,
    pending: map<OpId, Pending>,
    lost: set<MsgId>)

  const Empty := State(map[], [], map[], map[], map[], {})

  datatype Input = Input(
    conversation: ConvId,
    sender: Option<UserId>,
    body: Option<nat>,
    kind: Kind,
    key: Option<Key>,
    file: Option<FileId>)

  /** How an append ends; every failure rolls the transaction back. */
  datatype Result =
    | Created(id: MsgId)
    | Existing(id: MsgId)
    | KeyConflict
    | DuplicateKey
    | NoConversation
    | NotAMember
    | FileUnavailable

  datatype Event =
    | CreateConversation(conversation: ConvId)
    | Join(conversation: ConvId, user: UserId)
    | Leave(conversation: ConvId, user: UserId)
    | Send(input: Input)
    | Edit(id: MsgId, body: nat)
    | Delete(id: MsgId)
    | RemoveFiles(id: MsgId)
    | ReadTo(op: OpId, conversation: ConvId, user: UserId, seqNo: int)
    | Unread(op: OpId, conversation: ConvId, user: UserId)
    | Write(op: OpId)
    | Upload(file: FileId, uploader: UserId, conversation: ConvId, kind: Kind, now: int)
    | Prepare(op: OpId, file: FileId)
    | Process(op: OpId, kind: Kind)
    | Discard(op: OpId)
    | Sweep(cutoff: int, chosen: set<FileId>)
    | EraseAccount(user: UserId)

  // ---- the append transaction ----------------------------------------------------------------------

  predicate HasKey(m: Message, sender: UserId, key: Key) {
    m.sender == Some(sender) && m.key == Some(key)
  }

  /** `findByClientMsgId`. */
  function FindByKey(t: Table, sender: UserId, key: Key): (r: Option<MsgId>)
    ensures r.Some? ==> r.value < |t| && HasKey(t[r.value], sender, key)
    ensures r.None? ==> forall i | 0 <= i < |t| :: !HasKey(t[i], sender, key)
  {
    if t == [] then None
    else if HasKey(t[|t| - 1], sender, key) then Some(|t| - 1)
    else FindByKey(t[..|t| - 1], sender, key)
  }

  predicate Linkable(files: map<FileId, Attachment>, f: FileId) {
    f in files && files[f].message == None && files[f].processed
  }

  predicate IsMember(s: State, c: ConvId, u: UserId) {
    (c, u) in s.members && s.members[(c, u)].active
  }

  function AdvanceRead(members: map<(ConvId, UserId), Member>, c: ConvId, u: UserId, seqNo: nat): map<(ConvId, UserId), Member> {
    if (c, u) in members
    then members[(c, u) := members[(c, u)].(lastReadSeq := Max(members[(c, u)].lastReadSeq, seqNo))]
    else members
  }

  /** The message an input names by its key, if its key is taken. */
  function Taken(s: State, i: Input): Option<MsgId> {
    if i.sender.Some? && i.key.Some? then FindByKey(s.messages, i.sender.value, i.key.value) else None
  }

  /** `appendMessageWithStatus`: the result, in the order the checks come. */
  function Outcome(s: State, i: Input): Result {
    match Taken(s, i)
    case Some(m) =>
      if s.messages[m].conversation != i.conversation || s.messages[m].kind != i.kind then KeyConflict else Existing(m)
    case None =>
      if i.conversation !in s.lastSeq then NoConversation
      else if i.sender.Some? && !IsMember(s, i.conversation, i.sender.value) then NotAMember
      else if i.file.Some? && !Linkable(s.files, i.file.value) then FileUnavailable
      else Created(|s.messages|)
  }

  /** What becomes of an append whose lookup found nothing: its statements after the lookup, in order. A
   *  key taken since then stops the insert at the unique index. */
  function LateOutcome(s: State, i: Input): Result {
    if i.conversation !in s.lastSeq then NoConversation
    else if i.sender.Some? && !IsMember(s, i.conversation, i.sender.value) then NotAMember
    else if Taken(s, i).Some? then DuplicateKey
    else if i.file.Some? && !Linkable(s.files, i.file.value) then FileUnavailable
    else Created(|s.messages|)
  }

  /** What a committed append leaves. */
  function Appended(s: State, i: Input): State
    requires i.conversation in s.lastSeq && (i.file.Some? ==> i.file.value in s.files)
  {
    var next := s.lastSeq[i.conversation] + 1;
    var m := Message(i.conversation, next, i.sender, i.key, i.kind, i.body, false);
    s.(lastSeq := s.lastSeq[i.conversation := next],
       messages := s.messages + [m],
       files := if i.file.Some? then s.files[i.file.value := s.files[i.file.value].(message := Some(|s.messages|))] else s.files,
       members := if i.sender.Some? then AdvanceRead(s.members, i.conversation, i.sender.value, next) else s.members)
  }

  function Append(s: State, i: Input): State {
    if Outcome(s, i).Created? then Appended(s, i) else s
  }

  function LateAppend(s: State, i: Input): State {
    if LateOutcome(s, i).Created? then Appended(s, i) else s
  }

  /** However late the lookup was, the append changes what it would have changed with one made now. */
  lemma LateAppendIsAppend(s: State, i: Input)
    ensures LateAppend(s, i) == Append(s, i)
  {
  }

  /** What reaches the append: a file only with its own kind, and only the sender's own upload to
   *  this conversation; a client's key is never a reserved one. */
  predicate WellFormed(s: State, i: Input) {
    && (i.kind in {Image, File} <==> i.file.Some?)
    && (i.file.Some? ==> i.sender.Some?)
    && (i.file.Some? && i.file.value in s.files ==>
          s.files[i.file.value].uploader == i.sender.value && s.files[i.file.value].conversation == i.conversation)
    && (i.key.Some? && i.key.value.CallKey? ==> i.kind == CallEntry)
  }

  // ---- everything else -----------------------------------------------------------------------------

  function Tombstone(m: Message): Message {
    m.(deleted := true, body := None)
  }

  predicate Erasable(m: Message, u: UserId) {
    m.sender == Some(u) && !m.deleted && m.kind in {Text, Image, File}
  }

  function EraseBy(t: Table, u: UserId): (r: Table)
    ensures |r| == |t|
    ensures forall i | 0 <= i < |t| :: r[i] == if Erasable(t[i], u) then Tombstone(t[i]) else t[i]
  {
    seq(|t|, i requires 0 <= i < |t| => if Erasable(t[i], u) then Tombstone(t[i]) else t[i])
  }

  function DoWrite(s: State, op: OpId): State
    requires op in s.pending
  {
    var done := s.(pending := s.pending - {op});
    match s.pending[op]
    case MarkRead(c, u, to) =>
      if IsMember(s, c, u) then done.(members := AdvanceRead(s.members, c, u, to)) else done
    case MarkUnread(c, u, to) =>
      if IsMember(s, c, u)
      then done.(members := s.members[(c, u) := s.members[(c, u)].(lastReadSeq := Min(s.members[(c, u)].lastReadSeq, to))])
      else done
    case Processing(_) => s
  }

  /** The file rows an unconditional delete by id removes, and the messages that lose theirs. */
  function DropFile(s: State, f: FileId): State {
    s.(files := s.files - {f},
       lost := if f in s.files && s.files[f].message.Some? then s.lost + {s.files[f].message.value} else s.lost)
  }

  /** An update by id: nothing, when the row is gone. */
  function Processed(s: State, f: FileId, kind: Kind): State {
    if f in s.files then s.(files := s.files[f := s.files[f].(processed := true, kind := kind)]) else s
  }

  function Step(s: State, e: Event): State {
    match e
    case CreateConversation(c) => if c in s.lastSeq then s else s.(lastSeq := s.lastSeq[c := 0])
    case Join(c, u) =>
      if c !in s.lastSeq then s
      else if (c, u) in s.members then s.(members := s.members[(c, u) := s.members[(c, u)].(active := true)])
      else s.(members := s.members[(c, u) := Member(true, 0)])
    case Leave(c, u) =>
      if (c, u) in s.members then s.(members := s.members[(c, u) := s.members[(c, u)].(active := false)]) else s
    case Send(i) => if WellFormed(s, i) then Append(s, i) else s
    case Edit(m, body) =>
      if m < |s.messages| && !s.messages[m].deleted then s.(messages := s.messages[m := s.messages[m].(body := Some(body))]) else s
    case Delete(m) =>
      if m < |s.messages| && !s.messages[m].deleted then s.(messages := s.messages[m := Tombstone(s.messages[m])]) else s
    case RemoveFiles(m) =>
      if m < |s.messages| && s.messages[m].deleted
      then s.(files := map f | f in s.files && s.files[f].message != Some(m) :: s.files[f]) else s
    case ReadTo(op, c, u, n) =>
      if op in s.pending || !IsMember(s, c, u) || c !in s.lastSeq then s
      else s.(pending := s.pending[op := MarkRead(c, u, Min(Max(n, 0), s.lastSeq[c]))])
    case Unread(op, c, u) =>
      if op in s.pending || !IsMember(s, c, u) || c !in s.lastSeq || s.lastSeq[c] == 0 then s
      else s.(pending := s.pending[op := MarkUnread(c, u, s.lastSeq[c] - 1)])
    case Write(op) => if op in s.pending then DoWrite(s, op) else s
    case Upload(f, u, c, kind, now) =>
      if f in s.files || kind !in {Image, File} then s
      else s.(files := s.files[f := Attachment(u, c, kind, now, false, None)])
    case Prepare(op, f) =>
      if op in s.pending || f !in s.files || s.files[f].message.Some? || s.files[f].processed then s
      else s.(pending := s.pending[op := Processing(f)])
    case Process(op, kind) =>
      if op in s.pending && s.pending[op].Processing? then Processed(s, s.pending[op].file, kind).(pending := s.pending - {op})
      else s
    case Discard(op) =>
      if op in s.pending && s.pending[op].Processing?
      then DropFile(s, s.pending[op].file).(pending := s.pending - {op}) else s
    case Sweep(cutoff, chosen) =>
      s.(files := map f | f in s.files && !(f in chosen && s.files[f].message == None && s.files[f].createdAt < cutoff) :: s.files[f])
    case EraseAccount(u) =>
      s.(messages := EraseBy(s.messages, u),
         files := map f | f in s.files && s.files[f].uploader != u :: s.files[f])
  }

  function Run(s: State, events: seq<Event>): State {
    if events == [] then s else Step(Run(s, events[..|events| - 1]), events[|events| - 1])
  }

  // ---- the invariant -------------------------------------------------------------------------------

  /** The rows of one conversation, in table order. */
  function RowsOf(t: Table, c: ConvId): (r: Table)
    ensures forall i | 0 <= i < |r| :: r[i].conversation == c
  {
    if t == [] then []
    else
      var init := RowsOf(t[..|t| - 1], c);
      if t[|t| - 1].conversation == c then init + [t[|t| - 1]] else init
  }

  /** The conversation's seqs are exactly 1 to the number of its messages, in commit order. */
  ghost predicate GapFree(t: Table, c: ConvId) {
    forall i | 0 <= i < |RowsOf(t, c)| :: RowsOf(t, c)[i].seqNo == i + 1
  }

  ghost predicate SeqsOk(s: State) {
    && (forall c | c in s.lastSeq :: GapFree(s.messages, c) && |RowsOf(s.messages, c)| == s.lastSeq[c])
    && (forall i | 0 <= i < |s.messages| :: s.messages[i].conversation in s.lastSeq)
  }

  /** `(sender, clientMsgId)` is unique. */
  ghost predicate KeysUnique(t: Table) {
    forall i, j | 0 <= i < j < |t| && t[i].sender.Some? && t[i].key.Some? ::
      !HasKey(t[j], t[i].sender.value, t[i].key.value)
  }

  ghost predicate ReadsOk(s: State) {
    && (forall k | k in s.members :: k.0 in s.lastSeq && s.members[k].lastReadSeq <= s.lastSeq[k.0])
    && (forall op | op in s.pending && !s.pending[op].Processing? ::
          s.pending[op].conversation in s.lastSeq && s.pending[op].to <= s.lastSeq[s.pending[op].conversation])
  }

  predicate LinkedTo(s: State, f: FileId, m: MsgId) {
    f in s.files && s.files[f].message == Some(m)
  }

  /** A linked file is processed, belongs to its message's sender, and is that message's only one. */
  ghost predicate LinksOk(s: State) {
    && (forall f: FileId, m: MsgId | LinkedTo(s, f, m) ::
          && m < |s.messages| && m !in s.lost && s.files[f].processed
          && s.messages[m].kind in {Image, File}
          && s.messages[m].sender == Some(s.files[f].uploader))
    && (forall f: FileId, g: FileId, m: MsgId | LinkedTo(s, f, m) && LinkedTo(s, g, m) :: f == g)
    && (forall m | m in s.lost :: m < |s.messages|)
  }

  /** A live image or file message has its file, unless a discard took it. */
  ghost predicate FilesPresent(s: State) {
    forall m | 0 <= m < |s.messages| && s.messages[m].kind in {Image, File} && !s.messages[m].deleted && m !in s.lost ::
      exists f :: LinkedTo(s, f, m)
  }

  ghost predicate Inv(s: State) {
    SeqsOk(s) && KeysUnique(s.messages) && ReadsOk(s) && LinksOk(s) && FilesPresent(s)
  }

  // ---- every step keeps it -------------------------------------------------------------------------

  lemma RowsAfterAppend(t: Table, m: Message, c: ConvId)
    ensures RowsOf(t + [m], c) == if m.conversation == c then RowsOf(t, c) + [m] else RowsOf(t, c)
  {
    assert (t + [m])[..|t|] == t;
  }

  /** Changing rows without moving them between conversations or renumbering them. */
  lemma {:induction false} RowsAfterEdit(t: Table, u: Table, c: ConvId)
    requires |t| == |u|
    requires forall i | 0 <= i < |t| :: t[i].conversation == u[i].conversation && t[i].seqNo == u[i].seqNo
    ensures |RowsOf(t, c)| == |RowsOf(u, c)|
    ensures forall i | 0 <= i < |RowsOf(t, c)| :: RowsOf(t, c)[i].seqNo == RowsOf(u, c)[i].seqNo
  {
    if t != [] {
      RowsAfterEdit(t[..|t| - 1], u[..|u| - 1], c);
    }
  }

  /** A row keeps its place, number, author, key and kind for good; only text and tombstones change. */
  predicate Extends(t: Table, u: Table) {
    && |t| <= |u|
    && (forall i | 0 <= i < |t| ::
          && (t[i].conversation, t[i].seqNo, t[i].sender, t[i].key, t[i].kind)
             == (u[i].conversation, u[i].seqNo, u[i].sender, u[i].key, u[i].kind)
          && (t[i].deleted ==> u[i].deleted))
  }

  predicate SameRows(t: Table, u: Table) {
    |t| == |u| && Extends(t, u)
  }

  lemma EditKeepsSeqs(s: State, t: State)
    requires SeqsOk(s) && SameRows(s.messages, t.messages) && t.lastSeq == s.lastSeq
    ensures SeqsOk(t)
  {
    forall c | c in t.lastSeq ensures GapFree(t.messages, c) && |RowsOf(t.messages, c)| == t.lastSeq[c] {
      RowsAfterEdit(s.messages, t.messages, c);
    }
  }

  lemma AppendNumbers(s: State, i: Input, c: ConvId)
    requires SeqsOk(s) && Outcome(s, i).Created? && c in s.lastSeq
    ensures var t := Appended(s, i); GapFree(t.messages, c) && |RowsOf(t.messages, c)| == t.lastSeq[c]
  {
    RowsAfterAppend(s.messages, Appended(s, i).messages[|s.messages|], c);
  }

  lemma AppendKeepsSeqs(s: State, i: Input)
    requires SeqsOk(s)
    ensures SeqsOk(Append(s, i))
  {
    if Outcome(s, i).Created? {
      forall c | c in Appended(s, i).lastSeq
        ensures GapFree(Appended(s, i).messages, c) && |RowsOf(Appended(s, i).messages, c)| == Appended(s, i).lastSeq[c]
      {
        AppendNumbers(s, i, c);
      }
    }
  }

  lemma {:induction false} NoRows(t: Table, c: ConvId)
    requires forall i | 0 <= i < |t| :: t[i].conversation != c
    ensures RowsOf(t, c) == []
  {
    if t != [] {
      NoRows(t[..|t| - 1], c);
    }
  }

  lemma NewConversationKeepsSeqs(s: State, c: ConvId)
    requires SeqsOk(s) && c !in s.lastSeq
    ensures SeqsOk(s.(lastSeq := s.lastSeq[c := 0]))
  {
    NoRows(s.messages, c);
  }

  lemma StepKeepsSeqs(s: State, e: Event)
    requires SeqsOk(s)
    ensures SeqsOk(Step(s, e))
  {
    match e
    case CreateConversation(c) => if c !in s.lastSeq { NewConversationKeepsSeqs(s, c); }
    case Send(i) => AppendKeepsSeqs(s, i);
    case _ => ElseKeepsSeqs(s, e);
  }

  lemma ElseKeepsSeqs(s: State, e: Event)
    requires SeqsOk(s) && !e.CreateConversation? && !e.Send?
    ensures SeqsOk(Step(s, e))
  {
    StepExtends(s, e);
    EditKeepsSeqs(s, Step(s, e));
  }

  lemma StepExtends(s: State, e: Event)
    ensures Extends(s.messages, Step(s, e).messages)
    ensures !e.Send? ==> |Step(s, e).messages| == |s.messages|
  {
  }

  lemma StepKeepsKeys(s: State, e: Event)
    requires KeysUnique(s.messages)
    ensures KeysUnique(Step(s, e).messages)
  {
  }

  lemma SendKeepsReads(s: State, i: Input)
    requires ReadsOk(s)
    ensures ReadsOk(Append(s, i))
  {
  }

  lemma WriteKeepsReads(s: State, op: OpId)
    requires ReadsOk(s) && op in s.pending
    ensures ReadsOk(DoWrite(s, op))
  {
  }

  /** What a request has clamped to the conversation's length, it may write later. */
  lemma AskKeepsReads(s: State, e: Event)
    requires ReadsOk(s) && (e.ReadTo? || e.Unread?)
    ensures ReadsOk(Step(s, e))
  {
  }

  lemma MembershipKeepsReads(s: State, e: Event)
    requires ReadsOk(s) && (e.CreateConversation? || e.Join? || e.Leave?)
    ensures ReadsOk(Step(s, e))
  {
  }

  /** The events that touch messages and files only. */
  predicate RowsOnly(e: Event) {
    e.Edit? || e.Delete? || e.RemoveFiles? || e.Upload? || e.Sweep? || e.EraseAccount?
  }

  lemma RowsKeepReads(s: State, e: Event)
    requires ReadsOk(s) && RowsOnly(e)
    ensures ReadsOk(Step(s, e))
  {
  }

  lemma FilesKeepReads(s: State, e: Event)
    requires ReadsOk(s) && (e.Prepare? || e.Process? || e.Discard?)
    ensures ReadsOk(Step(s, e))
  {
    ElseKeepsReads(s, Step(s, e));
  }

  lemma ElseKeepsReads(s: State, t: State)
    requires ReadsOk(s) && t.lastSeq == s.lastSeq && t.members == s.members
    requires forall op | op in t.pending && !t.pending[op].Processing? :: op in s.pending && t.pending[op] == s.pending[op]
    ensures ReadsOk(t)
  {
  }

  lemma StepKeepsReads(s: State, e: Event)
    requires ReadsOk(s)
    ensures ReadsOk(Step(s, e))
  {
    match e
    case Send(i) => SendKeepsReads(s, i);
    case Write(op) => if op in s.pending { WriteKeepsReads(s, op); }
    case ReadTo(_, _, _, _) => AskKeepsReads(s, e);
    case Unread(_, _, _) => AskKeepsReads(s, e);
    case CreateConversation(_) => MembershipKeepsReads(s, e);
    case Join(_, _) => MembershipKeepsReads(s, e);
    case Leave(_, _) => MembershipKeepsReads(s, e);
    case Prepare(_, _) => FilesKeepReads(s, e);
    case Process(_, _) => FilesKeepReads(s, e);
    case Discard(_) => FilesKeepReads(s, e);
    case _ => RowsKeepReads(s, e);
  }

  // ---- attachments ---------------------------------------------------------------------------------

  /** Files go away or are marked processed; messages stay put or become tombstones. */
  lemma ShrinkKeepsLinks(s: State, t: State)
    requires LinksOk(s) && SameRows(s.messages, t.messages) && t.lost == s.lost
    requires forall f | f in t.files && t.files[f].message.Some? ::
               f in s.files && t.files[f].message == s.files[f].message
               && t.files[f].uploader == s.files[f].uploader && (s.files[f].processed ==> t.files[f].processed)
    ensures LinksOk(t)
  {
    forall f: FileId, m: MsgId | LinkedTo(t, f, m) ensures LinkedTo(s, f, m) {
    }
  }

  lemma DropKeepsLinks(s: State, f: FileId)
    requires LinksOk(s)
    ensures LinksOk(DropFile(s, f))
  {
    var t := DropFile(s, f);
    forall g: FileId, m: MsgId | LinkedTo(t, g, m) ensures LinkedTo(s, g, m) && m !in t.lost {
      assert LinkedTo(s, g, m) && g != f;
      assert !LinkedTo(s, f, m);
    }
    if f in s.files && s.files[f].message.Some? {
      assert LinkedTo(s, f, s.files[f].message.value);
    }
  }

  lemma AppendKeepsLinks(s: State, i: Input)
    requires LinksOk(s) && WellFormed(s, i)
    ensures LinksOk(Append(s, i))
  {
    var t := Append(s, i);
    if Outcome(s, i).Created? {
      forall f: FileId, m: MsgId | LinkedTo(t, f, m)
        ensures LinkedTo(s, f, m) || (m == |s.messages| && Some(f) == i.file)
      {
      }
      forall f: FileId, m: MsgId | LinkedTo(s, f, m) ensures m < |s.messages| && t.messages[m] == s.messages[m] {
      }
    }
  }

  lemma DiscardKeepsLinks(s: State, op: OpId)
    requires LinksOk(s)
    ensures LinksOk(Step(s, Discard(op)))
  {
    if op in s.pending && s.pending[op].Processing? {
      DropKeepsLinks(s, s.pending[op].file);
      ShrinkKeepsLinks(DropFile(s, s.pending[op].file), Step(s, Discard(op)));
    }
  }

  lemma UploadKeepsLinks(s: State, e: Event)
    requires LinksOk(s) && (e.Upload? || e.Process?)
    ensures LinksOk(Step(s, e))
  {
    ShrinkKeepsLinks(s, Step(s, e));
  }

  lemma CleanupKeepsLinks(s: State, e: Event)
    requires LinksOk(s) && (e.Sweep? || e.EraseAccount? || e.RemoveFiles?)
    ensures LinksOk(Step(s, e))
  {
    ShrinkKeepsLinks(s, Step(s, e));
  }

  lemma TextKeepsLinks(s: State, e: Event)
    requires LinksOk(s) && (e.Edit? || e.Delete?)
    ensures LinksOk(Step(s, e))
  {
    ShrinkKeepsLinks(s, Step(s, e));
  }

  lemma StepKeepsLinks(s: State, e: Event)
    requires LinksOk(s)
    ensures LinksOk(Step(s, e))
  {
    match e
    case Send(i) => if WellFormed(s, i) { AppendKeepsLinks(s, i); }
    case Discard(op) => DiscardKeepsLinks(s, op);
    case Upload(_, _, _, _, _) => UploadKeepsLinks(s, e);
    case Process(_, _) => UploadKeepsLinks(s, e);
    case Sweep(_, _) => CleanupKeepsLinks(s, e);
    case EraseAccount(_) => CleanupKeepsLinks(s, e);
    case RemoveFiles(_) => CleanupKeepsLinks(s, e);
    case Edit(_, _) => TextKeepsLinks(s, e);
    case Delete(_) => TextKeepsLinks(s, e);
    case _ => ShrinkKeepsLinks(s, Step(s, e));
  }

  /** Nothing live loses its file. */
  lemma KeptFilesPresent(s: State, t: State)
    requires FilesPresent(s) && SameRows(s.messages, t.messages) && s.lost <= t.lost
    requires forall f: FileId, m: MsgId | LinkedTo(s, f, m) && m < |t.messages| && !t.messages[m].deleted && m !in t.lost ::
               LinkedTo(t, f, m)
    ensures FilesPresent(t)
  {
    forall m | 0 <= m < |t.messages| && t.messages[m].kind in {Image, File} && !t.messages[m].deleted && m !in t.lost
      ensures exists f :: LinkedTo(t, f, m)
    {
      assert s.messages[m].kind in {Image, File} && !s.messages[m].deleted;
      var f :| LinkedTo(s, f, m);
      assert LinkedTo(t, f, m);
    }
  }

  lemma AppendKeepsFiles(s: State, i: Input)
    requires LinksOk(s) && FilesPresent(s) && WellFormed(s, i)
    ensures FilesPresent(Append(s, i))
  {
    var t := Append(s, i);
    if Outcome(s, i).Created? {
      forall m | 0 <= m < |t.messages| && t.messages[m].kind in {Image, File} && !t.messages[m].deleted && m !in t.lost
        ensures exists f :: LinkedTo(t, f, m)
      {
        if m < |s.messages| {
          assert t.messages[m] == s.messages[m];
          var f :| LinkedTo(s, f, m);
          assert LinkedTo(t, f, m);
        } else {
          assert LinkedTo(t, i.file.value, m);
        }
      }
    }
  }

  lemma StepKeepsFiles(s: State, e: Event)
    requires LinksOk(s) && FilesPresent(s)
    ensures FilesPresent(Step(s, e))
  {
    match e
    case Send(i) => if WellFormed(s, i) { AppendKeepsFiles(s, i); }
    case EraseAccount(u) => EraseKeepsFiles(s, u);
    case Discard(op) => DiscardKeepsFiles(s, op);
    case _ => ElseKeepsFiles(s, e);
  }

  lemma EraseKeepsFiles(s: State, u: UserId)
    requires LinksOk(s) && FilesPresent(s)
    ensures FilesPresent(Step(s, EraseAccount(u)))
  {
    var t := Step(s, EraseAccount(u));
    forall f: FileId, m: MsgId | LinkedTo(s, f, m) && !t.messages[m].deleted ensures LinkedTo(t, f, m) {
      assert m < |s.messages| && s.messages[m].kind in {Image, File};
    }
    KeptFilesPresent(s, t);
  }

  lemma DiscardKeepsFiles(s: State, op: OpId)
    requires FilesPresent(s)
    ensures FilesPresent(Step(s, Discard(op)))
  {
    KeptFilesPresent(s, Step(s, Discard(op)));
  }

  lemma ElseKeepsFiles(s: State, e: Event)
    requires LinksOk(s) && FilesPresent(s) && !e.Send? && !e.EraseAccount? && !e.Discard?
    ensures FilesPresent(Step(s, e))
  {
    KeptFilesPresent(s, Step(s, e));
  }

  lemma StepKeepsInv(s: State, e: Event)
    requires Inv(s)
    ensures Inv(Step(s, e))
  {
    StepKeepsSeqs(s, e);
    StepKeepsKeys(s, e);
    StepKeepsReads(s, e);
    StepKeepsLinks(s, e);
    StepKeepsFiles(s, e);
  }

  lemma {:induction false} RunKeepsInv(s: State, events: seq<Event>)
    requires Inv(s)
    ensures Inv(Run(s, events))
  {
    if events != [] {
      RunKeepsInv(s, events[..|events| - 1]);
      StepKeepsInv(Run(s, events[..|events| - 1]), events[|events| - 1]);
    }
  }

  // ---- what holds over every run -------------------------------------------------------------------

  /** A conversation's messages are numbered 1 to `lastSeq` with no gap and no repeat, keys are unique
   *  per sender, and every read position lies in 0..lastSeq. */
  lemma LogIsGapFree(events: seq<Event>, c: ConvId)
    requires c in Run(Empty, events).lastSeq
    ensures var s := Run(Empty, events);
            && |RowsOf(s.messages, c)| == s.lastSeq[c]
            && (forall i | 0 <= i < s.lastSeq[c] :: RowsOf(s.messages, c)[i].seqNo == i + 1)
            && KeysUnique(s.messages)
            && (forall u | (c, u) in s.members :: 0 <= s.members[(c, u)].lastReadSeq <= s.lastSeq[c])
  {
    RunKeepsInv(Empty, events);
  }

  lemma {:induction false} RowsStay(s: State, more: seq<Event>)
    ensures Extends(s.messages, Run(s, more).messages)
  {
    if more != [] {
      RowsStay(s, more[..|more| - 1]);
      StepExtends(Run(s, more[..|more| - 1]), more[|more| - 1]);
    }
  }

  /** The key of a committed append, from the same sender, is answered from the original row for good:
   *  the same message again is that row and changes nothing, anything else is refused and changes
   *  nothing -- whatever was edited, deleted or appended in between. A retry whose lookup came too early
   *  to see the original is stopped by the unique index, and changes nothing either. */
  lemma RetryReturnsOriginal(events: seq<Event>, i: Input, more: seq<Event>, again: Input)
    requires WellFormed(Run(Empty, events), i) && Outcome(Run(Empty, events), i).Created?
    requires i.sender.Some? && i.key.Some? && again.sender == i.sender && again.key == i.key
    ensures var m := |Run(Empty, events).messages|;
            var t := Run(Append(Run(Empty, events), i), more);
            && Outcome(t, again) == (if again.conversation == i.conversation && again.kind == i.kind
                                     then Existing(m) else KeyConflict)
            && Append(t, again) == t
            && (again.conversation in t.lastSeq && IsMember(t, again.conversation, again.sender.value) ==>
                  LateOutcome(t, again) == DuplicateKey)
            && LateAppend(t, again) == t
  {
    var s := Run(Empty, events);
    RunKeepsInv(Empty, events);
    AppendKeepsInv(s, i);
    KeyStaysTaken(Append(s, i), |s.messages|, i.sender.value, i.key.value, more);
  }

  lemma AppendKeepsInv(s: State, i: Input)
    requires Inv(s) && WellFormed(s, i)
    ensures Inv(Append(s, i))
  {
    StepKeepsInv(s, Send(i));
  }

  lemma KeyStaysTaken(s: State, m: MsgId, sender: UserId, key: Key, more: seq<Event>)
    requires Inv(s) && m < |s.messages| && HasKey(s.messages[m], sender, key)
    ensures var t := Run(s, more).messages;
            && FindByKey(t, sender, key) == Some(m)
            && t[m].conversation == s.messages[m].conversation && t[m].kind == s.messages[m].kind
  {
    RunKeepsInv(s, more);
    RowsStay(s, more);
    KeyNamesOne(Run(s, more).messages, m, sender, key);
  }

  lemma KeyNamesOne(t: Table, m: MsgId, sender: UserId, key: Key)
    requires KeysUnique(t) && m < |t| && HasKey(t[m], sender, key)
    ensures FindByKey(t, sender, key) == Some(m)
  {
    var r := FindByKey(t, sender, key);
    assert r.Some?;
    assert HasKey(t[r.value], sender, key);
  }

  // ---- what a message says -------------------------------------------------------------------------

  /** A text that started as `body`, after these events: that of the last edit of the message, if there is one. */
  function TextAfter(body: Option<nat>, m: MsgId, later: seq<Event>): Option<nat> {
    if later == [] then body
    else
      var e := later[|later| - 1];
      if e.Edit? && e.id == m then Some(e.body) else TextAfter(body, m, later[..|later| - 1])
  }

  predicate SaysNothing(row: Message) {
    row.deleted ==> row.body == None
  }

  /** Only an edit of a message changes what it says while it lives, and a deleted one says nothing. */
  lemma StepText(s: State, e: Event, m: MsgId)
    requires m < |s.messages| && SaysNothing(s.messages[m])
    ensures m < |Step(s, e).messages|
    ensures var row := Step(s, e).messages[m];
            SaysNothing(row) && (!row.deleted ==> row.body == if e.Edit? && e.id == m then Some(e.body) else s.messages[m].body)
  {
  }

  /** The row an append leaves is the message as it was sent, under the conversation's next number. */
  predicate IsAsSent(row: Message, i: Input, number: nat) {
    row.conversation == i.conversation && row.seqNo == number
    && row.sender == i.sender && row.key == i.key && row.kind == i.kind
  }

  lemma SendAppends(s: State, e: Event, m: MsgId)
    requires m == |s.messages| < |Step(s, e).messages|
    ensures e.Send? && WellFormed(s, e.input) && Outcome(s, e.input) == Created(m) && e.input.conversation in s.lastSeq
    ensures Step(s, e).messages == s.messages + [Step(s, e).messages[m]]
    ensures var row := Step(s, e).messages[m];
            IsAsSent(row, e.input, s.lastSeq[e.input.conversation] + 1) && row.body == e.input.body && !row.deleted
    ensures e.input.file.Some? ==> LinkedTo(Step(s, e), e.input.file.value, m)
  {
  }

  /** Every message of every run was sent: by one event, with this sender, key and kind, as the next in its
   *  conversation. While it lives it says what was sent, or what its last edit put there; nothing else
   *  changes it; and once deleted it says nothing. */
  lemma {:induction false} MessageSaysWhatWasSent(events: seq<Event>, m: MsgId) returns (k: nat)
    requires m < |Run(Empty, events).messages|
    ensures k < |events| && events[k].Send?
    ensures var s, i, row := Run(Empty, events[..k]), events[k].input, Run(Empty, events).messages[m];
            && |s.messages| == m && Outcome(s, i) == Created(m) && i.conversation in s.lastSeq
            && IsAsSent(row, i, s.lastSeq[i.conversation] + 1)
            && row.body == if row.deleted then None else TextAfter(i.body, m, events[k + 1..])
  {
    var init, e := events[..|events| - 1], events[|events| - 1];
    var s := Run(Empty, init);
    if m < |s.messages| {
      k := MessageSaysWhatWasSent(init, m);
      assert init[..k] == events[..k];
      assert events[k + 1..] == init[k + 1..] + [e];
      assert (init[k + 1..] + [e])[..|init[k + 1..]|] == init[k + 1..];
      StepText(s, e, m);
      StepExtends(s, e);
    } else {
      OneRowAtMost(s, e);
      SendAppends(s, e, m);
      k := |events| - 1;
      assert events[k + 1..] == [];
    }
  }

  lemma OneRowAtMost(s: State, e: Event)
    ensures |s.messages| <= |Step(s, e).messages| <= |s.messages| + 1
  {
  }

  // ---- what is asked for is written ----------------------------------------------------------------

  /** The request that `e` belongs to, if it belongs to one. */
  predicate Of(e: Event, op: OpId) {
    (e.ReadTo? || e.Unread? || e.Write? || e.Prepare? || e.Process? || e.Discard?) && e.op == op
  }

  lemma OthersLeavePending(s: State, e: Event, op: OpId)
    requires !Of(e, op)
    ensures op in Step(s, e).pending <==> op in s.pending
    ensures op in s.pending ==> Step(s, e).pending[op] == s.pending[op]
  {
  }

  lemma {:induction false} PendingWaits(s: State, a: seq<Event>, op: OpId)
    requires forall e | e in a :: !Of(e, op)
    ensures op in Run(s, a).pending <==> op in s.pending
    ensures op in s.pending ==> Run(s, a).pending[op] == s.pending[op]
  {
    if a != [] {
      PendingWaits(s, a[..|a| - 1], op);
      OthersLeavePending(Run(s, a[..|a| - 1]), a[|a| - 1], op);
    }
  }

  /** A read mark of a member reaches what was asked for, or as far as the log then went, unless the position
   *  is further already -- whatever happens before it is written, as long as the user stays a member. */
  lemma ReadIsReached(s: State, op: OpId, c: ConvId, u: UserId, n: int, a: seq<Event>)
    requires op !in s.pending && c in s.lastSeq && IsMember(s, c, u) && forall e | e in a :: !Of(e, op)
    ensures var before := Run(Step(s, ReadTo(op, c, u, n)), a);
            var after := Step(before, Write(op));
            var to := if n < 0 then 0 else if n > s.lastSeq[c] then s.lastSeq[c] else n;
            IsMember(before, c, u) ==>
              (c, u) in after.members
              && after.members[(c, u)].lastReadSeq == (if to > before.members[(c, u)].lastReadSeq then to else before.members[(c, u)].lastReadSeq)
  {
    PendingWaits(Step(s, ReadTo(op, c, u, n)), a, op);
  }

  /** Marking as unread leaves at least the latest message, as it was then, unread. */
  lemma UnreadIsReached(s: State, op: OpId, c: ConvId, u: UserId, a: seq<Event>)
    requires op !in s.pending && c in s.lastSeq && IsMember(s, c, u) && s.lastSeq[c] > 0 && forall e | e in a :: !Of(e, op)
    ensures var before := Run(Step(s, Unread(op, c, u)), a);
            var after := Step(before, Write(op));
            IsMember(before, c, u) ==>
              (c, u) in after.members && after.members[(c, u)].lastReadSeq < s.lastSeq[c]
              && after.members[(c, u)].lastReadSeq <= before.members[(c, u)].lastReadSeq
              && (before.members[(c, u)].lastReadSeq < s.lastSeq[c] ==>
                    after.members[(c, u)].lastReadSeq == before.members[(c, u)].lastReadSeq)
  {
    PendingWaits(Step(s, Unread(op, c, u)), a, op);
  }

  // ---- the files of messages -----------------------------------------------------------------------

  /** Every live image or file message has exactly one file, processed and its sender's own -- if and
   *  only if no `discard` deleted that file after it was linked. */
  lemma FileGoneIffDiscarded(events: seq<Event>, m: MsgId)
    requires m < |Run(Empty, events).messages|
    requires var row := Run(Empty, events).messages[m]; row.kind in {Image, File} && !row.deleted
    ensures var s := Run(Empty, events);
            (m !in s.lost <==>
              exists f :: LinkedTo(s, f, m) && s.files[f].processed && Some(s.files[f].uploader) == s.messages[m].sender
                          && forall g: FileId | LinkedTo(s, g, m) :: g == f)
  {
    RunKeepsInv(Empty, events);
    var s := Run(Empty, events);
    if m !in s.lost {
      var f :| LinkedTo(s, f, m);
    } else {
      assert forall f: FileId :: !LinkedTo(s, f, m);
    }
  }

  /** Only the pending discard of that very file takes a linked file from a live message; the sweep of
   *  unsent files never does. */
  lemma LinkedFileStays(events: seq<Event>, s: State, e: Event, f: FileId, m: MsgId)
    requires s == Run(Empty, events) && LinkedTo(s, f, m)
    requires m < |Step(s, e).messages| && !Step(s, e).messages[m].deleted
    requires !(e.Discard? && e.op in s.pending && s.pending[e.op] == Processing(f))
    ensures LinkedTo(Step(s, e), f, m)
  {
    RunKeepsInv(Empty, events);
    KeptByStep(s, e, f, m);
  }

  /** No request that prepares `f` is still running. */
  predicate Unprepared(s: State, f: FileId) {
    forall op | op in s.pending :: s.pending[op] != Processing(f)
  }

  predicate IsLive(s: State, m: MsgId) {
    m < |s.messages| && !s.messages[m].deleted
  }

  lemma StepKeepsUnprepared(s: State, e: Event, f: FileId, m: MsgId)
    requires LinksOk(s) && LinkedTo(s, f, m) && Unprepared(s, f) && IsLive(Step(s, e), m)
    ensures LinkedTo(Step(s, e), f, m) && Unprepared(Step(s, e), f)
  {
    KeptByStep(s, e, f, m);
    UnpreparedAfter(s, e, f);
  }

  /** A linked file is not prepared again. */
  lemma UnpreparedAfter(s: State, e: Event, f: FileId)
    requires f in s.files && s.files[f].message.Some? && Unprepared(s, f)
    ensures Unprepared(Step(s, e), f)
  {
  }

  lemma {:induction false} LinkKept(s: State, more: seq<Event>, f: FileId, m: MsgId)
    requires Inv(s) && LinkedTo(s, f, m) && Unprepared(s, f) && IsLive(Run(s, more), m)
    ensures LinkedTo(Run(s, more), f, m) && Unprepared(Run(s, more), f)
  {
    if more != [] {
      var init := more[..|more| - 1];
      RowsStay(s, init);
      StepExtends(Run(s, init), more[|more| - 1]);
      LinkKept(s, init, f, m);
      RunKeepsInv(s, init);
      StepKeepsUnprepared(Run(s, init), more[|more| - 1], f, m);
    }
  }

  /** A live message keeps its file for as long as it lives, whatever follows, if and only if no request
   *  that was preparing this upload is still running. */
  lemma LinkIsForGoodIff(events: seq<Event>, f: FileId, m: MsgId)
    requires LinkedTo(Run(Empty, events), f, m) && IsLive(Run(Empty, events), m)
    ensures var s := Run(Empty, events);
            Unprepared(s, f) <==> (forall more | IsLive(Run(s, more), m) :: LinkedTo(Run(s, more), f, m))
  {
    var s := Run(Empty, events);
    RunKeepsInv(Empty, events);
    if Unprepared(s, f) {
      forall more | IsLive(Run(s, more), m) ensures LinkedTo(Run(s, more), f, m) {
        LinkKept(s, more, f, m);
      }
    } else {
      var op :| op in s.pending && s.pending[op] == Processing(f);
      DiscardTakesLink(s, op, f, m);
    }
  }

  lemma DiscardTakesLink(s: State, op: OpId, f: FileId, m: MsgId)
    requires op in s.pending && s.pending[op] == Processing(f) && IsLive(s, m)
    ensures IsLive(Run(s, [Discard(op)]), m) && !LinkedTo(Run(s, [Discard(op)]), f, m)
  {
    assert [Discard(op)][..0] == [];
    assert Run(s, [Discard(op)]) == Step(s, Discard(op));
  }

  lemma KeptByStep(s: State, e: Event, f: FileId, m: MsgId)
    requires LinksOk(s) && LinkedTo(s, f, m)
    requires m < |Step(s, e).messages| && !Step(s, e).messages[m].deleted
    requires !(e.Discard? && e.op in s.pending && s.pending[e.op] == Processing(f))
    ensures LinkedTo(Step(s, e), f, m)
  {
    StepExtends(s, e);
    match e
    case RemoveFiles(n) =>
    case EraseAccount(u) => assert s.messages[m].sender == Some(s.files[f].uploader);
    case _ =>
  }

  /** It happens: two sends prepare one upload, and the second finds it too large after the first was
   *  sent with it. */
  lemma DiscardTakesASentFile() returns (events: seq<Event>, m: MsgId)
    ensures m < |Run(Empty, events).messages|
    ensures Run(Empty, events).messages[m].kind == Image && !Run(Empty, events).messages[m].deleted
    ensures forall f: FileId :: !LinkedTo(Run(Empty, events), f, m)
  {
    var before := PreparedTwice();
    var s := Run(Empty, before);
    var i := Input(1, Some(5), None, Image, None, Some(9));
    assert Outcome(s, i) == Created(0);
    RunOne(before, Send(i));
    RunOne(before + [Send(i)], Discard(1));
    events, m := before + [Send(i)] + [Discard(1)], 0;
  }

  lemma PreparedTwice() returns (events: seq<Event>)
    ensures var s := Run(Empty, events);
            && s.messages == [] && s.lastSeq == map[1 := 0] && IsMember(s, 1, 5)
            && s.files == map[9 := Attachment(5, 1, Image, 0, true, None)] && s.pending == map[1 := Processing(9)]
  {
    var s1 := Empty.(lastSeq := map[1 := 0], members := map[(1, 5) := Member(true, 0)]);
    var s2 := s1.(files := map[9 := Attachment(5, 1, Image, 0, false, None)], pending := map[0 := Processing(9)]);
    var e1 := Opened(s1);
    var e2 := Uploaded(s1, s2, e1);
    events := ProcessedOnce(s2, e2);
  }

  lemma ProcessedOnce(s: State, before: seq<Event>) returns (events: seq<Event>)
    requires Run(Empty, before) == s && s.pending == map[0 := Processing(9)]
    requires s.files == map[9 := Attachment(5, 1, Image, 0, false, None)]
    ensures Run(Empty, events) ==
            s.(files := map[9 := Attachment(5, 1, Image, 0, true, None)], pending := map[1 := Processing(9)])
  {
    var t := Step(s, Prepare(1, 9));
    RunOne(before, Prepare(1, 9));
    RunOne(before + [Prepare(1, 9)], Process(0, Image));
    events := before + [Prepare(1, 9)] + [Process(0, Image)];
    assert t.pending - {0} == map[1 := Processing(9)];
  }

  lemma Opened(s: State) returns (events: seq<Event>)
    requires s == Empty.(lastSeq := map[1 := 0], members := map[(1, 5) := Member(true, 0)])
    ensures Run(Empty, events) == s
  {
    RunOne([], CreateConversation(1));
    RunOne([] + [CreateConversation(1)], Join(1, 5));
    events := [] + [CreateConversation(1)] + [Join(1, 5)];
    assert Step(Empty, CreateConversation(1)) == Empty.(lastSeq := map[1 := 0]);
  }

  lemma Uploaded(s: State, t: State, before: seq<Event>) returns (events: seq<Event>)
    requires Run(Empty, before) == s && s.files == map[] && s.pending == map[]
    requires t == s.(files := map[9 := Attachment(5, 1, Image, 0, false, None)], pending := map[0 := Processing(9)])
    ensures Run(Empty, events) == t
  {
    var e := Upload(9, 5, 1, Image, 0);
    RunOne(before, e);
    RunOne(before + [e], Prepare(0, 9));
    events := before + [e] + [Prepare(0, 9)];
  }

  lemma RunOne(events: seq<Event>, e: Event)
    ensures Run(Empty, events + [e]) == Step(Run(Empty, events), e)
  {
    assert (events + [e])[..|events|] == events;
  }

  // ---- the store itself ----------------------------------------------------------------------------

  /** The tables. Each method is one transaction or one statement. */
  class ConversationStore {
    var lastSeq: map<ConvId, nat>
    var messages: Table
    var members: map<(ConvId, UserId), Member>
    var files: map<FileId, Attachment>
    var pending: map<OpId, Pending>
    ghost var lost: set<MsgId>

    ghost function View(): State
      reads this
    {
      State(lastSeq, messages, members, files, pending, lost)
    }

    constructor ()
      ensures View() == Empty
    {
      lastSeq, messages, members, files, pending, lost := map[], [], map[], map[], map[], {};
    }

    /** `appendMessageWithStatus`: the lookup by key, and then the rest of the transaction. */
    method AppendMessage(i: Input) returns (r: Result)
      modifies this
      ensures r == Outcome(old(View()), i)
      ensures View() == Append(old(View()), i)
      ensures !r.Created? ==> View() == old(View())
      ensures r.Created? ==> messages == old(messages) + [messages[r.id]] && r.id == |old(messages)|
      ensures r.Created? ==>
                && i.conversation in old(lastSeq)
                && messages == old(messages) + [Message(i.conversation, old(lastSeq)[i.conversation] + 1, i.sender, i.key, i.kind, i.body, false)]
                && lastSeq == old(lastSeq)[i.conversation := old(lastSeq)[i.conversation] + 1]
      ensures r.Created? ==>
                files == if i.file.Some? && i.file.value in old(files)
                         then old(files)[i.file.value := old(files)[i.file.value].(message := Some(r.id))] else old(files)
      ensures r.Created? && i.sender.Some? ==>
                (i.conversation, i.sender.value) in members && members[(i.conversation, i.sender.value)].active
                && members[(i.conversation, i.sender.value)].lastReadSeq >= lastSeq[i.conversation]
      ensures forall k | k in old(members) && !(i.sender.Some? && k == (i.conversation, i.sender.value)) :: k in members && members[k] == old(members)[k]
      ensures pending == old(pending)
    {
      if i.sender.Some? && i.key.Some? {
        var existing := FindByKey(messages, i.sender.value, i.key.value);
        if existing.Some? {
          var row := messages[existing.value];
          if row.conversation != i.conversation || row.kind != i.kind { return KeyConflict; }
          return Existing(existing.value);
        }
      }
      r := InsertMessage(i);
    }

    /** The statements after a lookup that found nothing, in order; a failure after the seq was taken, or
     *  after the row was inserted, rolls both back. The lookup may have seen an earlier state. */
    method InsertMessage(i: Input) returns (r: Result)
      modifies this
      ensures r == LateOutcome(old(View()), i)
      ensures View() == Append(old(View()), i)
      ensures !r.Created? ==> View() == old(View())
      ensures r.Created? ==> messages == old(messages) + [messages[r.id]] && r.id == |old(messages)|
      ensures r.Created? ==>
                && i.conversation in old(lastSeq)
                && messages == old(messages) + [Message(i.conversation, old(lastSeq)[i.conversation] + 1, i.sender, i.key, i.kind, i.body, false)]
                && lastSeq == old(lastSeq)[i.conversation := old(lastSeq)[i.conversation] + 1]
      ensures r.Created? ==>
                files == if i.file.Some? && i.file.value in old(files)
                         then old(files)[i.file.value := old(files)[i.file.value].(message := Some(r.id))] else old(files)
      ensures r.Created? && i.sender.Some? ==>
                (i.conversation, i.sender.value) in members && members[(i.conversation, i.sender.value)].active
                && members[(i.conversation, i.sender.value)].lastReadSeq >= lastSeq[i.conversation]
      ensures forall k | k in old(members) && !(i.sender.Some? && k == (i.conversation, i.sender.value)) :: k in members && members[k] == old(members)[k]
      ensures pending == old(pending)
    {
      var savedSeq, savedMessages := lastSeq, messages;
      if i.conversation !in lastSeq { return NoConversation; }
      lastSeq := lastSeq[i.conversation := lastSeq[i.conversation] + 1];
      var taken := lastSeq[i.conversation];
      if i.sender.Some? {
        var k := (i.conversation, i.sender.value);
        if k !in members || !members[k].active {
          lastSeq := savedSeq;
          return NotAMember;
        }
        if i.key.Some? && FindByKey(messages, i.sender.value, i.key.value).Some? {
          lastSeq := savedSeq;
          return DuplicateKey;
        }
      }
      var id := |messages|;
      messages := messages + [Message(i.conversation, taken, i.sender, i.key, i.kind, i.body, false)];
      if i.file.Some? {
        var linked := LinkAttachment(i.file.value, id);
        if !linked {
          lastSeq, messages := savedSeq, savedMessages;
          return FileUnavailable;
        }
      }
      if i.sender.Some? {
        members := AdvanceRead(members, i.conversation, i.sender.value, taken);
      }
      return Created(id);
    }

    /** `linkAttachmentToMessage`: only the first message wins. */
    method LinkAttachment(f: FileId, id: MsgId) returns (linked: bool)
      modifies this`files
      ensures linked <==> Linkable(old(files), f)
      ensures files == if linked then old(files)[f := old(files)[f].(message := Some(id))] else old(files)
    {
      linked := f in files && files[f].message == None && files[f].processed;
      if linked { files := files[f := files[f].(message := Some(id))]; }
    }

    method EditMessageBody(id: MsgId, body: nat) returns (edited: bool)
      modifies this`messages
      ensures View() == Step(old(View()), Edit(id, body))
      ensures edited <==> id < |old(messages)| && !old(messages)[id].deleted
      ensures messages == if edited then old(messages)[id := old(messages)[id].(body := Some(body))] else old(messages)
    {
      edited := id < |messages| && !messages[id].deleted;
      if edited { messages := messages[id := messages[id].(body := Some(body))]; }
    }

    method SoftDeleteMessage(id: MsgId) returns (deleted: bool)
      modifies this`messages
      ensures View() == Step(old(View()), Delete(id))
      ensures deleted <==> id < |old(messages)| && !old(messages)[id].deleted
      ensures messages == if deleted then old(messages)[id := old(messages)[id].(deleted := true, body := None)] else old(messages)
    {
      deleted := id < |messages| && !messages[id].deleted;
      if deleted { messages := messages[id := messages[id].(deleted := true, body := None)]; }
    }

    /** `markRead` up to its UPDATE: the position asked for, clamped to what exists now. */
    method AskRead(op: OpId, c: ConvId, u: UserId, n: int) returns (found: bool)
      requires op !in pending
      modifies this`pending
      ensures View() == Step(old(View()), ReadTo(op, c, u, n))
      ensures found <==> c in lastSeq && IsMember(old(View()), c, u)
      ensures found ==> pending[op] == MarkRead(c, u, if n < 0 then 0 else if n > lastSeq[c] then lastSeq[c] else n)
      ensures !found ==> View() == old(View())
      ensures pending - {op} == old(pending) && (op in pending <==> found)
    {
      found := c in lastSeq && (c, u) in members && members[(c, u)].active;
      if found {
        var clamped := if n < 0 then 0 else if n > lastSeq[c] then lastSeq[c] else n;
        pending := pending[op := MarkRead(c, u, clamped)];
      }
    }

    /** `markUnread` up to its UPDATE. */
    method AskUnread(op: OpId, c: ConvId, u: UserId) returns (accepted: bool)
      requires op !in pending
      modifies this`pending
      ensures View() == Step(old(View()), Unread(op, c, u))
      ensures accepted <==> c in lastSeq && IsMember(old(View()), c, u) && lastSeq[c] != 0
      ensures !accepted ==> View() == old(View())
      ensures pending - {op} == old(pending) && (accepted ==> op in pending && pending[op] == MarkUnread(c, u, lastSeq[c] - 1))
    {
      accepted := c in lastSeq && (c, u) in members && members[(c, u)].active && lastSeq[c] != 0;
      if accepted { pending := pending[op := MarkUnread(c, u, lastSeq[c] - 1)]; }
    }

    /** `markConversationRead` and `markConversationUnread`: forward, or back, never the other way. */
    method WriteReadPosition(op: OpId)
      requires op in pending && !pending[op].Processing?
      modifies this
      ensures View() == Step(old(View()), Write(op))
      ensures forall k | k in old(members) :: k in members && members[k].active == old(members)[k].active
      ensures old(pending)[op].MarkRead? ==> forall k | k in old(members) :: old(members)[k].lastReadSeq <= members[k].lastReadSeq
      ensures old(pending)[op].MarkUnread? ==> forall k | k in old(members) :: members[k].lastReadSeq <= old(members)[k].lastReadSeq
      ensures pending == old(pending) - {op} && (messages, lastSeq, files) == (old(messages), old(lastSeq), old(files))
      ensures var p := old(pending)[op];
              var k := (p.conversation, p.user);
              if k in old(members) && old(members)[k].active
              then k in members
                   && members[k].lastReadSeq == (if p.MarkRead? == (p.to > old(members)[k].lastReadSeq) then p.to else old(members)[k].lastReadSeq)
                   && members - {k} == old(members) - {k}
              else members == old(members)
    {
      var p := pending[op];
      var k := (p.conversation, p.user);
      pending := pending - {op};
      if k in members && members[k].active {
        var read := members[k].lastReadSeq;
        match p {
          case MarkRead(_, _, to) => if to > read { members := members[k := members[k].(lastReadSeq := to)]; }
          case MarkUnread(_, _, to) => if to < read { members := members[k := members[k].(lastReadSeq := to)]; }
        }
      }
      assert k in members ==> members[k := members[k]] == members;
    }

    /** `markAttachmentProcessed`. */
    method MarkAttachmentProcessed(op: OpId, kind: Kind)
      requires op in pending && pending[op].Processing?
      modifies this
      ensures View() == Step(old(View()), Process(op, kind))
      ensures files.Keys == old(files.Keys)
      ensures forall f | f in files :: files[f].message == old(files)[f].message
      ensures var f := old(pending)[op].file;
              files == if f in old(files) then old(files)[f := old(files)[f].(processed := true, kind := kind)] else old(files)
      ensures pending == old(pending) - {op} && messages == old(messages)
    {
      var f := pending[op].file;
      if f in files { files := files[f := files[f].(processed := true, kind := kind)]; }
      pending := pending - {op};
    }

    /** `discard`: by id, whatever the row has become since it was read. */
    method DiscardAttachment(op: OpId)
      requires op in pending && pending[op].Processing?
      modifies this
      ensures View() == Step(old(View()), Discard(op))
      ensures files == old(files) - {old(pending)[op].file} && pending == old(pending) - {op} && messages == old(messages)
    {
      var f := pending[op].file;
      if f in files && files[f].message.Some? { lost := lost + {files[f].message.value}; }
      files := files - {f};
      pending := pending - {op};
    }

    /** `deleteStaleUnsentAttachments`, of the rows its subquery chose. */
    method DeleteStaleUnsent(cutoff: int, chosen: set<FileId>) returns (removed: set<FileId>)
      modifies this`files
      ensures View() == Step(old(View()), Sweep(cutoff, chosen))
      ensures forall f | f in removed :: f in old(files) && old(files)[f].message == None
      ensures forall f | f in old(files) && old(files)[f].message.Some? :: f in files && files[f] == old(files)[f]
      ensures files == old(files) - removed
      ensures removed == (set f | f in old(files) && f in chosen && old(files)[f].message == None && old(files)[f].createdAt < cutoff)
    {
      removed := set f | f in files && f in chosen && files[f].message == None && files[f].createdAt < cutoff;
      files := map f | f in files && f !in removed :: files[f];
    }
  }
}

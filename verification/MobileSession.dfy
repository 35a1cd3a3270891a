/**
 * The phone's session manager (apps/mobile/src/auth/session.ts): single-flight refresh, a
 * generation counter, and one queue for every keystore mutation, all interleaved across `await`s.
 *
 * An event is one synchronous stretch between two `await`s, or one keystore call. Keystore calls
 * succeed; the server's answers are arbitrary.
 */
module MobileSession {
  import opened Common

  type Token = nat
  type User = nat
  type OpId = nat

  datatype Session = Session(access: Token, refresh: Token, user: User)

  datatype Kind = Refresh | Login | Logout

  /** Where an operation waits. */
  datatype Wait =
    | Reading                                       // refresh: the keystore read is out
    | Requesting(token: Token)                      // refresh: POST /auth/refresh is out
    | Persisting(session: Session)                  // its write is in the queue
    | Persisted(session: Session, written: bool)    // the write's turn has passed
    | Clearing                                      // its clear is in the queue
    | Cleared(stored: Option<Token>)                // the clear has run
    | Settling                                      // the promise has settled, `finally` has not run

  datatype Op = Op(kind: Kind, captured: nat, wait: Wait)

  /** A keystore mutation in the queue, and how far the one at the head has got. `generation` is the
   *  one it re-checks (a write) or the one its `clearLocal` made (a clear). */
  datatype Task =
    | Write(op: OpId, generation: nat, token: Token, started: bool)
    | Clear(op: OpId, generation: nat, read: Option<Option<Token>>)

  /** Who touched the keystore last (history). */
  datatype Touch = Untouched | ClearedBy(generation: nat) | WrittenBy(op: OpId, generation: nat, token: Token)

  /** An access token and user put in place (history). */
  datatype Install = Install(op: OpId, captured: nat, session: Session)

  datatype Flight = Flight(generation: nat, op: OpId)

  /** `installs`, `touch`, `lastEnd`, `started` and `launch` are history: the installs so far, the
   *  last keystore mutation, the generation of the last `clearLocal`, what each operation captured,
   *  and what the keystore held at launch. `revoked` are the tokens handed to `revoke`. */
  datatype State = State(
    access: Option<Token>,
    user: Option<User>,
    generation: nat,
    inFlight: Option<Flight>,
    queue: seq<Task>,
    keystore: Option<Token>,
    ops: map<OpId, Op>,
    revoked: seq<Token>,
    installs: seq<Install>,
    touch: Touch,
    lastEnd: nat,
    started: map<OpId, nat>,
    launch: Option<Token>)

  function Launched(stored: Option<Token>): State {
    State(None, None, 0, None, [], stored, map[], [], [], Untouched, 0, map[], stored)
  }

  datatype Event =
    | CallRefresh(op: OpId)
    | ReadStored(op: OpId)
    | RefreshOk(op: OpId, session: Session)
    | RefreshRejected(op: OpId)
    | RefreshFailed(op: OpId)
    | SignedIn(op: OpId, session: Session)
    | CallLogout(op: OpId)
    | RunQueue
    | Resume(op: OpId)
    | Finally(op: OpId)

  // ---- the code, stretch by stretch ----------------------------------------------------------------

  predicate Waits(s: State, op: OpId, kind: Kind) {
    op in s.ops && s.ops[op].kind == kind
  }

  function SetWait(s: State, op: OpId, wait: Wait): State
    requires op in s.ops
  {
    s.(ops := s.ops[op := s.ops[op].(wait := wait)])
  }

  /** The synchronous part of `clearLocal`. */
  function EndLocal(s: State, op: OpId): State {
    s.(generation := s.generation + 1,
       access := None,
       user := None,
       queue := s.queue + [Clear(op, s.generation + 1, None)],
       lastEnd := s.generation + 1)
  }

  function Begin(s: State, op: OpId, kind: Kind, captured: nat, wait: Wait): State {
    s.(ops := s.ops[op := Op(kind, captured, wait)], started := s.started[op := captured])
  }

  /** `refreshNow` up to its first `await`. */
  function DoCallRefresh(s: State, op: OpId): State {
    var inFlight := if s.inFlight.Some? && s.inFlight.value.generation != s.generation then None else s.inFlight;
    if inFlight.Some? then s
    else Begin(s, op, Refresh, s.generation, Reading).(inFlight := Some(Flight(s.generation, op)))
  }

  /** The keystore read of a refresh comes back; it does not go through the queue. */
  function DoReadStored(s: State, op: OpId): State
    requires op in s.ops
  {
    match s.keystore
    case None => SetWait(EndLocal(s, op), op, Clearing)
    case Some(token) => SetWait(s, op, Requesting(token))
  }

  function DoRefreshOk(s: State, op: OpId, session: Session): State
    requires op in s.ops
  {
    var captured := s.ops[op].captured;
    if s.generation != captured
    then SetWait(s, op, Settling).(revoked := s.revoked + [session.refresh])
    else SetWait(s, op, Persisting(session)).(queue := s.queue + [Write(op, captured, session.refresh, false)])
  }

  function DoRefreshRejected(s: State, op: OpId): State
    requires op in s.ops
  {
    if s.generation == s.ops[op].captured
    then SetWait(EndLocal(s, op), op, Clearing)
    else SetWait(s, op, Settling)
  }

  /** `start`, up to its `await`. */
  function DoSignedIn(s: State, op: OpId, session: Session): State {
    var mine := s.generation + 1;
    Begin(s, op, Login, mine, Persisting(session)).(
      generation := mine,
      queue := s.queue + [Write(op, mine, session.refresh, false)])
  }

  function DoCallLogout(s: State, op: OpId): State {
    Begin(EndLocal(s, op), op, Logout, s.generation + 1, Clearing)
  }

  /** The operation that queued a task learns how its turn went. */
  function Deliver(s: State, op: OpId, written: bool): State {
    if op in s.ops && s.ops[op].wait.Persisting?
    then SetWait(s, op, Persisted(s.ops[op].wait.session, written)) else s
  }

  function DeliverCleared(s: State, op: OpId, stored: Option<Token>): State {
    if op in s.ops && s.ops[op].wait.Clearing? then SetWait(s, op, Cleared(stored)) else s
  }

  /** The task at the head takes its next step. */
  function DoRunQueue(s: State): State
    requires s.queue != []
  {
    var rest := s.queue[1..];
    match s.queue[0]
    case Write(op, g, token, false) =>
      if s.generation != g then Deliver(s.(queue := rest), op, false)
      else s.(queue := [Write(op, g, token, true)] + rest)
    case Write(op, g, token, true) =>
      Deliver(s.(queue := rest, keystore := Some(token), touch := WrittenBy(op, g, token)), op, true)
    case Clear(op, g, None) =>
      s.(queue := [Clear(op, g, Some(s.keystore))] + rest)
    case Clear(op, g, Some(stored)) =>
      DeliverCleared(s.(queue := rest, keystore := None, touch := ClearedBy(g)), op, stored)
  }

  function Apply(s: State, op: OpId, captured: nat, session: Session): State {
    s.(access := Some(session.access), user := Some(session.user),
       installs := s.installs + [Install(op, captured, session)])
  }

  /** A login or a logout is over once its last stretch has run; a refresh still has its `finally`. */
  function Finish(s: State, op: OpId): State
    requires op in s.ops
  {
    if s.ops[op].kind == Refresh then SetWait(s, op, Settling) else s.(ops := s.ops - {op})
  }

  /** What runs after `persist` or after the queued clear. */
  function DoResume(s: State, op: OpId): State
    requires op in s.ops
  {
    var o := s.ops[op];
    match o.wait
    case Persisted(session, written) =>
      if !written || s.generation != o.captured
      then Finish(s, op).(revoked := s.revoked + [session.refresh])
      else Apply(Finish(s, op), op, o.captured, session)
    case Cleared(stored) =>
      if o.kind == Logout && stored.Some?
      then Finish(s, op).(revoked := s.revoked + [stored.value])
      else Finish(s, op)
    case _ => s
  }

  function DoFinally(s: State, op: OpId): State {
    s.(ops := s.ops - {op},
       inFlight := if s.inFlight.Some? && s.inFlight.value.op == op then None else s.inFlight)
  }

  /** An event that cannot happen now changes nothing. */
  function Step(s: State, e: Event): State {
    match e
    case CallRefresh(op) => if op in s.started then s else DoCallRefresh(s, op)
    case ReadStored(op) => if Waits(s, op, Refresh) && s.ops[op].wait.Reading? then DoReadStored(s, op) else s
    case RefreshOk(op, session) =>
      if Waits(s, op, Refresh) && s.ops[op].wait.Requesting? then DoRefreshOk(s, op, session) else s
    case RefreshRejected(op) =>
      if Waits(s, op, Refresh) && s.ops[op].wait.Requesting? then DoRefreshRejected(s, op) else s
    case RefreshFailed(op) =>
      if Waits(s, op, Refresh) && s.ops[op].wait.Requesting? then SetWait(s, op, Settling) else s
    case SignedIn(op, session) => if op in s.started then s else DoSignedIn(s, op, session)
    case CallLogout(op) => if op in s.started then s else DoCallLogout(s, op)
    case RunQueue => if s.queue == [] then s else DoRunQueue(s)
    case Resume(op) => if op in s.ops then DoResume(s, op) else s
    case Finally(op) => if Waits(s, op, Refresh) && s.ops[op].wait.Settling? then DoFinally(s, op) else s
  }

  function Run(s: State, events: seq<Event>): State {
    if events == [] then s else Step(Run(s, events[..|events| - 1]), events[|events| - 1])
  }

  // ---- the keystore queue --------------------------------------------------------------------------

  function TouchGeneration(t: Touch): nat {
    match t
    case Untouched => 0
    case ClearedBy(g) => g
    case WrittenBy(_, g, _) => g
  }

  /** Queued tasks carry nondecreasing generations, no older than the last mutation's; the newest task
   *  carries the current generation; and an empty queue leaves the current generation's mutation. */
  ghost predicate InOrder(queue: seq<Task>, last: nat, current: nat) {
    && (forall i, j | 0 <= i <= j < |queue| :: queue[i].generation <= queue[j].generation)
    && (forall i | 0 <= i < |queue| :: last <= queue[i].generation)
    && (if queue != [] then queue[|queue| - 1].generation == current else last == current)
  }

  /** A queued write carries the generation its operation captured. */
  ghost predicate OwnGenerations(queue: seq<Task>, started: map<OpId, nat>) {
    forall i | 0 <= i < |queue| && queue[i].Write? ::
      queue[i].op in started && started[queue[i].op] == queue[i].generation
  }

  ghost predicate QueueInv(s: State) {
    InOrder(s.queue, TouchGeneration(s.touch), s.generation) && OwnGenerations(s.queue, s.started)
  }

  /** The keystore holds what its last mutation left. */
  ghost predicate KeystoreInv(s: State) {
    match s.touch
    case Untouched => s.keystore == s.launch
    case ClearedBy(_) => s.keystore == None
    case WrittenBy(op, g, token) => s.keystore == Some(token) && op in s.started && s.started[op] == g
  }

  /** What is signed in was installed last, by an operation that captured a generation no older than
   *  the last `clearLocal`. */
  ghost predicate SignedInInv(s: State) {
    && s.lastEnd <= s.generation
    && (s.access.Some? <==> s.user.Some?)
    && (s.access.Some? ==>
          && s.installs != []
          && var i := s.installs[|s.installs| - 1];
             s.access == Some(i.session.access) && s.user == Some(i.session.user) && s.lastEnd <= i.captured)
  }

  ghost predicate OpsInv(s: State) {
    forall op | op in s.ops :: op in s.started && s.ops[op].captured == s.started[op] <= s.generation
  }

  ghost predicate Inv(s: State) {
    QueueInv(s) && KeystoreInv(s) && SignedInInv(s) && OpsInv(s)
  }

  lemma SetWaitKeepsInv(s: State, op: OpId, wait: Wait)
    requires Inv(s) && op in s.ops
    ensures Inv(SetWait(s, op, wait))
  {
  }

  lemma EndLocalKeepsInv(s: State, op: OpId)
    requires Inv(s)
    ensures Inv(EndLocal(s, op))
  {
  }

  lemma RefreshOkKeepsInv(s: State, op: OpId, session: Session)
    requires Inv(s) && op in s.ops
    ensures Inv(DoRefreshOk(s, op, session))
  {
  }

  lemma BeginRefreshKeepsInv(s: State, op: OpId)
    requires Inv(s) && op !in s.started
    ensures Inv(DoCallRefresh(s, op))
  {
  }

  lemma BeginLoginKeepsInv(s: State, op: OpId, session: Session)
    requires Inv(s) && op !in s.started
    ensures Inv(DoSignedIn(s, op, session))
  {
  }

  lemma BeginLogoutKeepsInv(s: State, op: OpId)
    requires Inv(s) && op !in s.started
    ensures Inv(DoCallLogout(s, op))
  {
    EndLocalKeepsInv(s, op);
  }

  /** The head is done: it ran (and is now the last mutation), or it was stale and is skipped. */
  lemma PopKeepsOrder(queue: seq<Task>, last: nat, current: nat)
    requires InOrder(queue, last, current) && queue != []
    ensures InOrder(queue[1..], queue[0].generation, current)
    ensures queue[0].generation != current ==> InOrder(queue[1..], last, current)
  {
    if |queue| == 1 {
      assert queue[|queue| - 1] == queue[0];
    }
  }

  /** The head moves on without leaving the queue. */
  lemma AdvanceKeepsOrder(queue: seq<Task>, head: Task, last: nat, current: nat)
    requires InOrder(queue, last, current) && queue != [] && head.generation == queue[0].generation
    ensures InOrder([head] + queue[1..], last, current)
  {
    var next := [head] + queue[1..];
    forall i | 0 <= i < |queue| ensures next[i].generation == queue[i].generation {
    }
  }

  lemma AdvanceKeepsInv(s: State, head: Task)
    requires Inv(s) && s.queue != []
    requires head.generation == s.queue[0].generation && head.op == s.queue[0].op && head.Write? == s.queue[0].Write?
    ensures Inv(s.(queue := [head] + s.queue[1..]))
  {
    AdvanceKeepsOrder(s.queue, head, TouchGeneration(s.touch), s.generation);
    assert OwnGenerations([head] + s.queue[1..], s.started);
  }

  lemma SkipKeepsInv(s: State)
    requires Inv(s) && s.queue != [] && s.queue[0].generation != s.generation
    ensures Inv(s.(queue := s.queue[1..]))
  {
    PopKeepsOrder(s.queue, TouchGeneration(s.touch), s.generation);
  }

  lemma MutateKeepsInv(s: State, stored: Option<Token>, touch: Touch)
    requires Inv(s) && s.queue != []
    requires match touch
             case Untouched => false
             case ClearedBy(g) => stored == None && g == s.queue[0].generation
             case WrittenBy(op, g, token) => stored == Some(token) && s.queue[0].Write? && s.queue[0].op == op && s.queue[0].generation == g
    ensures Inv(s.(queue := s.queue[1..], keystore := stored, touch := touch))
  {
    PopKeepsOrder(s.queue, TouchGeneration(s.touch), s.generation);
    assert OwnGenerations(s.queue[1..], s.started);
  }

  lemma RunQueueKeepsInv(s: State)
    requires Inv(s) && s.queue != []
    ensures Inv(DoRunQueue(s))
  {
    var rest := s.queue[1..];
    match s.queue[0]
    case Write(op, g, token, false) =>
      if s.generation != g {
        SkipKeepsInv(s);
        OpsOnlyKeepsInv(s.(queue := rest), DoRunQueue(s));
      } else {
        AdvanceKeepsInv(s, Write(op, g, token, true));
      }
    case Write(op, g, token, true) =>
      MutateKeepsInv(s, Some(token), WrittenBy(op, g, token));
      OpsOnlyKeepsInv(s.(queue := rest, keystore := Some(token), touch := WrittenBy(op, g, token)), DoRunQueue(s));
    case Clear(op, g, None) =>
      AdvanceKeepsInv(s, Clear(op, g, Some(s.keystore)));
    case Clear(op, g, Some(stored)) =>
      MutateKeepsInv(s, None, ClearedBy(g));
      OpsOnlyKeepsInv(s.(queue := rest, keystore := None, touch := ClearedBy(g)), DoRunQueue(s));
  }

  /** Only the operations and what is revoked change, or something is installed. */
  lemma OpsOnlyKeepsInv(s: State, s': State)
    requires Inv(s)
    requires s' == s.(ops := s'.ops, revoked := s'.revoked)
    requires forall op | op in s'.ops :: op in s.ops && s'.ops[op].captured == s.ops[op].captured
    ensures Inv(s')
  {
  }

  lemma ApplyKeepsInv(s: State, op: OpId, session: Session)
    requires Inv(s)
    ensures Inv(Apply(s, op, s.generation, session))
  {
  }

  lemma ResumeKeepsInv(s: State, op: OpId)
    requires Inv(s) && op in s.ops
    ensures Inv(DoResume(s, op))
  {
    var s1 := Finish(s, op);
    var s' := DoResume(s, op);
    OpsOnlyKeepsInv(s, s1);
    if s.ops[op].wait.Persisted? && s'.installs != s.installs {
      ApplyKeepsInv(s1, op, s.ops[op].wait.session);
    } else if s.ops[op].wait.Persisted? || s.ops[op].wait.Cleared? {
      OpsOnlyKeepsInv(s, s');
    }
  }

  lemma EndedKeepsInv(s: State, op: OpId)
    requires Inv(s) && op in s.ops
    ensures Inv(SetWait(EndLocal(s, op), op, Clearing))
  {
    EndLocalKeepsInv(s, op);
    SetWaitKeepsInv(EndLocal(s, op), op, Clearing);
  }

  lemma ReadKeepsInv(s: State, op: OpId)
    requires Inv(s) && op in s.ops
    ensures Inv(DoReadStored(s, op))
  {
    if s.keystore == None { EndedKeepsInv(s, op); } else { SetWaitKeepsInv(s, op, Requesting(s.keystore.value)); }
  }

  lemma RejectedKeepsInv(s: State, op: OpId)
    requires Inv(s) && op in s.ops
    ensures Inv(DoRefreshRejected(s, op))
  {
    EndedKeepsInv(s, op);
    SetWaitKeepsInv(s, op, Settling);
  }

  lemma RefreshStepKeepsInv(s: State, e: Event)
    requires Inv(s) && (e.ReadStored? || e.RefreshOk? || e.RefreshRejected? || e.RefreshFailed?)
    ensures Inv(Step(s, e))
  {
    if e.op in s.ops {
      match e
      case ReadStored(op) => ReadKeepsInv(s, op);
      case RefreshOk(op, session) => RefreshOkKeepsInv(s, op, session);
      case RefreshRejected(op) => RejectedKeepsInv(s, op);
      case RefreshFailed(op) => SetWaitKeepsInv(s, op, Settling);
    }
  }

  lemma BeginStepKeepsInv(s: State, e: Event)
    requires Inv(s) && (e.CallRefresh? || e.SignedIn? || e.CallLogout?)
    ensures Inv(Step(s, e))
  {
    if e.op !in s.started {
      match e
      case CallRefresh(op) => BeginRefreshKeepsInv(s, op);
      case SignedIn(op, session) => BeginLoginKeepsInv(s, op, session);
      case CallLogout(op) => BeginLogoutKeepsInv(s, op);
    }
  }

  lemma FinallyKeepsInv(s: State, op: OpId)
    requires Inv(s)
    ensures Inv(Step(s, Finally(op)))
  {
  }

  lemma StepKeepsInv(s: State, e: Event)
    requires Inv(s)
    ensures Inv(Step(s, e))
  {
    if e.CallRefresh? || e.SignedIn? || e.CallLogout? {
      BeginStepKeepsInv(s, e);
    } else if e.RunQueue? {
      if s.queue != [] { RunQueueKeepsInv(s); }
    } else if e.Resume? {
      if e.op in s.ops { ResumeKeepsInv(s, e.op); }
    } else if e.Finally? {
      FinallyKeepsInv(s, e.op);
    } else {
      RefreshStepKeepsInv(s, e);
    }
  }

  lemma {:induction false} RunKeepsInv(s: State, events: seq<Event>)
    requires Inv(s)
    ensures Inv(Run(s, events))
  {
    if events != [] {
      RunKeepsInv(s, events[..|events| - 1]);
      StepKeepsInv(Run(s, events[..|events| - 1]), events[|events| - 1]);
    }
  }

  // ---- what holds over every run -------------------------------------------------------------------

  /** Whenever the queue is drained, the keystore is as it was at launch, or empty, or holds the token
   *  written by an operation that captured the current generation. */
  lemma DrainedKeystore(stored: Option<Token>, events: seq<Event>)
    requires Run(Launched(stored), events).queue == []
    ensures var s := Run(Launched(stored), events);
            match s.touch
            case Untouched => s.keystore == s.launch && s.generation == 0
            case ClearedBy(g) => s.keystore == None && g == s.generation
            case WrittenBy(op, g, token) =>
              s.keystore == Some(token) && op in s.started && s.started[op] == g == s.generation
  {
    RunKeepsInv(Launched(stored), events);
  }

  /** Whoever is signed in was put there last, by an operation begun no earlier than the last sign-out
   *  or rejection. */
  lemma SignedInIsRecent(stored: Option<Token>, events: seq<Event>)
    ensures var s := Run(Launched(stored), events);
            (s.access.Some? <==> s.user.Some?) &&
            (s.access.Some? ==>
               && s.installs != []
               && var i := s.installs[|s.installs| - 1];
                  s.access == Some(i.session.access) && s.user == Some(i.session.user) && s.lastEnd <= i.captured)
  {
    RunKeepsInv(Launched(stored), events);
  }

  /** `op` began under a generation that is no longer current. */
  predicate Stale(s: State, op: OpId) {
    op in s.started && s.started[op] < s.generation
  }

  lemma StepMovesOn(s: State, e: Event)
    ensures s.generation <= Step(s, e).generation
    ensures forall op | op in s.started :: op in Step(s, e).started && Step(s, e).started[op] == s.started[op]
  {
  }

  /** Only an operation of the current generation installs anything. */
  lemma OnlyCurrentInstalls(s: State, e: Event)
    ensures Step(s, e).installs != s.installs ==>
              && e.Resume? && e.op in s.ops && s.ops[e.op].captured == s.generation
              && exists session :: Step(s, e).installs == s.installs + [Install(e.op, s.generation, session)]
  {
    if e.Resume? && e.op in s.ops && s.ops[e.op].wait.Persisted? {
      var session := s.ops[e.op].wait.session;
      assert Step(s, e).installs == s.installs
          || Step(s, e).installs == s.installs + [Install(e.op, s.ops[e.op].captured, session)];
    }
  }

  lemma StepKeepsStale(s: State, e: Event, op: OpId)
    requires OpsInv(s) && Stale(s, op)
    ensures Stale(Step(s, e), op)
    ensures s.installs <= Step(s, e).installs
    ensures forall i | |s.installs| <= i < |Step(s, e).installs| :: Step(s, e).installs[i].op != op
  {
    StepMovesOn(s, e);
    OnlyCurrentInstalls(s, e);
  }

  /** Once an operation is stale it installs nothing more, whatever happens from then on. */
  lemma {:induction false} StaleNeverInstalls(s: State, more: seq<Event>, op: OpId)
    requires Inv(s) && Stale(s, op)
    ensures Stale(Run(s, more), op)
    ensures s.installs <= Run(s, more).installs
    ensures forall i | |s.installs| <= i < |Run(s, more).installs| :: Run(s, more).installs[i].op != op
  {
    if more != [] {
      var before := Run(s, more[..|more| - 1]);
      StaleNeverInstalls(s, more[..|more| - 1], op);
      RunKeepsInv(s, more[..|more| - 1]);
      StepKeepsStale(before, more[|more| - 1], op);
    }
  }

  lemma StepTouchesForward(s: State, e: Event)
    requires Inv(s)
    ensures TouchGeneration(s.touch) <= TouchGeneration(Step(s, e).touch)
  {
    if e.RunQueue? && s.queue != [] {
      assert TouchGeneration(s.touch) <= s.queue[0].generation;
    }
  }

  /** No write lands after the clear of a later sign-out, nor over the token of a newer sign-in. */
  lemma {:induction false} NoLateWrite(s: State, more: seq<Event>)
    requires Inv(s)
    ensures TouchGeneration(s.touch) <= TouchGeneration(Run(s, more).touch)
  {
    if more != [] {
      NoLateWrite(s, more[..|more| - 1]);
      RunKeepsInv(s, more[..|more| - 1]);
      StepTouchesForward(Run(s, more[..|more| - 1]), more[|more| - 1]);
    }
  }

  // ---- signed out for good? ------------------------------------------------------------------------

  /** A session of the current generation that is still on its way: the server is being asked, or its
   *  token has been written. */
  predicate MayYetInstall(s: State, op: OpId) {
    && op in s.ops && s.ops[op].captured == s.generation
    && match s.ops[op].wait
       case Requesting(_) => s.ops[op].kind == Refresh
       case Persisted(_, written) => written
       case _ => false
  }

  predicate NothingToWrite(s: State) {
    forall i | 0 <= i < |s.queue| && s.queue[i].Write? :: !s.queue[i].started && s.queue[i].generation != s.generation
  }

  predicate SignedOut(s: State) {
    && s.access == None && s.keystore == None
    && NothingToWrite(s)
    && forall op | op in s.ops :: !MayYetInstall(s, op)
  }

  predicate NoSignIn(events: seq<Event>) {
    forall e | e in events :: !e.SignedIn?
  }

  lemma RunQueueKeepsSignedOut(s: State)
    requires Inv(s) && SignedOut(s) && s.queue != []
    ensures SignedOut(DoRunQueue(s))
  {
    var t := DoRunQueue(s);
    assert !(s.queue[0].Write? && s.queue[0].started);
    forall op | op in t.ops ensures !MayYetInstall(t, op) {
      assert op in s.ops && !MayYetInstall(s, op);
    }
  }

  lemma StepKeepsSignedOut(s: State, e: Event)
    requires Inv(s) && SignedOut(s) && !e.SignedIn?
    ensures SignedOut(Step(s, e))
  {
    match e
    case RunQueue => if s.queue != [] { RunQueueKeepsSignedOut(s); }
    case Resume(op) => if op in s.ops { assert !MayYetInstall(s, op); }
    case _ =>
  }

  lemma {:induction false} StaysSignedOut(s: State, more: seq<Event>)
    requires Inv(s) && SignedOut(s) && NoSignIn(more)
    ensures SignedOut(Run(s, more))
  {
    if more != [] {
      StaysSignedOut(s, more[..|more| - 1]);
      RunKeepsInv(s, more[..|more| - 1]);
      StepKeepsSignedOut(Run(s, more[..|more| - 1]), more[|more| - 1]);
    }
  }

  lemma RunTwo(s: State, a: Event, b: Event)
    ensures Run(s, [a, b]) == Step(Step(s, a), b)
  {
    assert [a][..0] == [];
    assert Run(s, [a]) == Step(s, a);
    assert [a, b][..1] == [a];
  }

  lemma RunFour(s: State, a: Event, b: Event, c: Event, d: Event)
    ensures Run(s, [a, b, c, d]) == Step(Step(Step(Step(s, a), b), c), d)
  {
    assert [a, b, c, d][..3] == [a, b, c] && [a, b, c][..2] == [a, b];
    RunTwo(s, a, b);
  }

  // ---- and how a session comes back ----------------------------------------------------------------

  predicate HasWrite(queue: seq<Task>, op: OpId) {
    exists i :: 0 <= i < |queue| && queue[i].Write? && queue[i].op == op
  }

  /** What awaits its write has one in the queue; what was turned away, or ended the session itself,
   *  belongs to an older generation. */
  predicate OpFits(s: State, op: OpId)
    requires op in s.ops
  {
    var o := s.ops[op];
    && (o.wait.Persisting? ==> HasWrite(s.queue, op))
    && (o.wait.Persisted? && !o.wait.written ==> o.captured < s.generation)
    && (o.kind == Refresh && (o.wait.Clearing? || o.wait.Cleared?) ==> o.captured < s.generation)
  }

  predicate FlightOk(s: State) {
    s.inFlight.Some? ==>
      var f := s.inFlight.value;
      f.op in s.ops && s.ops[f.op].kind == Refresh && s.ops[f.op].captured == f.generation
  }

  predicate FlightInv(s: State) {
    FlightOk(s) && forall op | op in s.ops :: OpFits(s, op)
  }

  lemma WriteStays(queue: seq<Task>, task: Task, op: OpId)
    ensures HasWrite(queue, op) ==> HasWrite(queue + [task], op)
    ensures task.Write? && task.op == op ==> HasWrite(queue + [task], op)
  {
    assert (queue + [task])[|queue|] == task;
    if HasWrite(queue, op) {
      var i :| 0 <= i < |queue| && queue[i].Write? && queue[i].op == op;
      assert (queue + [task])[i] == queue[i];
    }
  }

  lemma HeadMoves(queue: seq<Task>, op: OpId)
    requires queue != [] && HasWrite(queue, op)
    ensures !(queue[0].Write? && queue[0].op == op) ==> HasWrite(queue[1..], op)
    ensures forall head: Task | head.Write? == queue[0].Write? && head.op == queue[0].op :: HasWrite([head] + queue[1..], op)
  {
    var i :| 0 <= i < |queue| && queue[i].Write? && queue[i].op == op;
    if i > 0 {
      assert queue[1..][i - 1] == queue[i];
    }
    forall head: Task | head.Write? == queue[0].Write? && head.op == queue[0].op ensures HasWrite([head] + queue[1..], op) {
      assert ([head] + queue[1..])[i] == if i == 0 then head else queue[i];
    }
  }

  lemma EndLocalFits(s: State, op: OpId)
    requires Inv(s) && FlightInv(s)
    ensures FlightInv(EndLocal(s, op))
  {
    forall o | o in s.ops ensures OpFits(EndLocal(s, op), o) {
      assert OpFits(s, o);
      WriteStays(s.queue, Clear(op, s.generation + 1, None), o);
    }
  }

  lemma BeginFits(s: State, e: Event)
    requires Inv(s) && FlightInv(s) && (e.CallRefresh? || e.SignedIn? || e.CallLogout?)
    ensures FlightInv(Step(s, e))
  {
    if e.op !in s.started {
      if e.CallLogout? {
        EndLocalFits(s, e.op);
      }
      forall o | o in Step(s, e).ops ensures OpFits(Step(s, e), o) {
        if o in s.ops { assert OpFits(s, o); }
        if e.SignedIn? { WriteStays(s.queue, Write(e.op, s.generation + 1, e.session.refresh, false), o); }
        if e.CallLogout? && o in s.ops { assert OpFits(EndLocal(s, e.op), o); }
      }
    }
  }

  /** An operation that waits for something else now, and not for a write. */
  lemma SetWaitFits(s: State, op: OpId, wait: Wait)
    requires FlightInv(s) && op in s.ops && !wait.Persisting? && (wait.Persisted? ==> wait.written)
    requires wait.Clearing? || wait.Cleared? ==> s.ops[op].captured < s.generation
    ensures FlightInv(SetWait(s, op, wait))
  {
    forall o | o in s.ops ensures OpFits(SetWait(s, op, wait), o) {
      assert OpFits(s, o);
    }
  }

  lemma EndedFits(s: State, op: OpId)
    requires Inv(s) && FlightInv(s) && op in s.ops
    ensures FlightInv(SetWait(EndLocal(s, op), op, Clearing))
  {
    EndLocalFits(s, op);
    SetWaitFits(EndLocal(s, op), op, Clearing);
  }

  lemma AnsweredFits(s: State, op: OpId, session: Session)
    requires Inv(s) && FlightInv(s) && op in s.ops
    ensures FlightInv(DoRefreshOk(s, op, session))
  {
    var t := DoRefreshOk(s, op, session);
    forall o | o in t.ops ensures OpFits(t, o) {
      assert OpFits(s, o);
      WriteStays(s.queue, Write(op, s.ops[op].captured, session.refresh, false), o);
    }
  }

  lemma RefreshFits(s: State, e: Event)
    requires Inv(s) && FlightInv(s) && (e.ReadStored? || e.RefreshOk? || e.RefreshRejected? || e.RefreshFailed?)
    ensures FlightInv(Step(s, e))
  {
    if e.op in s.ops {
      if e.RefreshOk? {
        AnsweredFits(s, e.op, e.session);
      } else {
        EndedFits(s, e.op);
        SetWaitFits(s, e.op, Settling);
        if e.ReadStored? && s.keystore.Some? { SetWaitFits(s, e.op, Requesting(s.keystore.value)); }
      }
    }
  }

  lemma WriteTurnFits(s: State, o: OpId)
    requires Inv(s) && FlightInv(s) && s.queue != [] && s.queue[0].Write? && o in s.ops
    ensures OpFits(DoRunQueue(s), o)
  {
    assert OpFits(s, o);
    if s.ops[o].wait.Persisting? { HeadMoves(s.queue, o); }
  }

  lemma ClearTurnFits(s: State, o: OpId)
    requires Inv(s) && FlightInv(s) && s.queue != [] && s.queue[0].Clear? && o in s.ops
    ensures OpFits(DoRunQueue(s), o)
  {
    assert OpFits(s, o);
    if s.ops[o].wait.Persisting? { HeadMoves(s.queue, o); }
  }

  lemma QueueKeepsFlight(s: State)
    requires FlightOk(s) && s.queue != []
    ensures DoRunQueue(s).ops.Keys == s.ops.Keys && FlightOk(DoRunQueue(s))
  {
  }

  lemma QueueFits(s: State)
    requires Inv(s) && FlightInv(s) && s.queue != []
    ensures FlightInv(DoRunQueue(s))
  {
    QueueKeepsFlight(s);
    forall o | o in DoRunQueue(s).ops.Keys ensures OpFits(DoRunQueue(s), o) {
      if s.queue[0].Write? { WriteTurnFits(s, o); } else { ClearTurnFits(s, o); }
    }
  }

  lemma ResumeFits(s: State, op: OpId)
    requires FlightInv(s) && op in s.ops
    ensures FlightInv(DoResume(s, op))
  {
    forall o | o in DoResume(s, op).ops ensures OpFits(DoResume(s, op), o) {
      assert OpFits(s, o);
    }
  }

  lemma FinallyFits(s: State, op: OpId)
    requires FlightInv(s)
    ensures FlightInv(DoFinally(s, op))
  {
    forall o | o in DoFinally(s, op).ops ensures OpFits(DoFinally(s, op), o) {
      assert OpFits(s, o);
    }
  }

  lemma StepKeepsFlight(s: State, e: Event)
    requires Inv(s) && FlightInv(s)
    ensures FlightInv(Step(s, e))
  {
    if e.CallRefresh? || e.SignedIn? || e.CallLogout? {
      BeginFits(s, e);
    } else if e.RunQueue? {
      if s.queue != [] { QueueFits(s); }
    } else if e.Resume? {
      if e.op in s.ops { ResumeFits(s, e.op); }
    } else if e.Finally? {
      FinallyFits(s, e.op);
    } else {
      RefreshFits(s, e);
    }
  }

  lemma {:induction false} RunKeepsFlight(s: State, events: seq<Event>)
    requires Inv(s) && FlightInv(s)
    ensures FlightInv(Run(s, events))
  {
    if events != [] {
      RunKeepsFlight(s, events[..|events| - 1]);
      RunKeepsInv(s, events[..|events| - 1]);
      StepKeepsFlight(Run(s, events[..|events| - 1]), events[|events| - 1]);
    }
  }

  /** From here, without a new sign-in, these events sign someone in. */
  predicate SignsIn(s: State, more: seq<Event>) {
    NoSignIn(more) && Run(s, more).access.Some?
  }

  lemma {:induction false} RunOn(s: State, e: Event, more: seq<Event>)
    ensures Run(s, [e] + more) == Run(Step(s, e), more)
  {
    if more == [] {
      assert [e] + more == [e] && [e][..0] == [];
    } else {
      RunOn(s, e, more[..|more| - 1]);
      assert ([e] + more)[..|more|] == [e] + more[..|more| - 1];
    }
  }

  lemma SignsInAfter(s: State, e: Event, more: seq<Event>)
    requires !e.SignedIn? && SignsIn(Step(s, e), more)
    ensures SignsIn(s, [e] + more)
  {
    RunOn(s, e, more);
  }

  lemma InstallNow(s: State, op: OpId) returns (more: seq<Event>)
    requires op in s.ops && s.ops[op].wait.Persisted? && s.ops[op].wait.written && s.ops[op].captured == s.generation
    ensures SignsIn(s, more)
  {
    RunOn(s, Resume(op), []);
    more := [Resume(op)] + [];
  }

  /** The queue is not there yet: neither the operation nor the generation has changed. */
  predicate StillQueued(s: State, t: State, op: OpId) {
    t.generation == s.generation && op in s.ops && op in t.ops && t.ops[op] == s.ops[op] && HasWrite(t.queue, op)
  }

  predicate Awaits(s: State, op: OpId) {
    && op in s.ops && s.ops[op].wait.Persisting? && s.ops[op].captured == s.generation && HasWrite(s.queue, op)
  }

  lemma OwnTurn(s: State, op: OpId)
    requires Inv(s) && Awaits(s, op) && s.queue[0].Write? && s.queue[0].op == op
    ensures var t := DoRunQueue(s);
            || StillQueued(s, t, op)
            || (op in t.ops && t.ops[op] == s.ops[op].(wait := Persisted(s.ops[op].wait.session, true)) && t.generation == s.generation)
  {
    HeadMoves(s.queue, op);
  }

  lemma OtherTurn(s: State, op: OpId)
    requires Inv(s) && Awaits(s, op) && !(s.queue[0].Write? && s.queue[0].op == op)
    ensures StillQueued(s, DoRunQueue(s), op)
  {
    HeadMoves(s.queue, op);
  }

  lemma QueueMoves(s: State, op: OpId)
    requires Inv(s) && Awaits(s, op)
    ensures var t := DoRunQueue(s);
            || StillQueued(s, t, op)
            || (op in t.ops && t.ops[op] == s.ops[op].(wait := Persisted(s.ops[op].wait.session, true)) && t.generation == s.generation)
  {
    if s.queue[0].Write? && s.queue[0].op == op { OwnTurn(s, op); } else { OtherTurn(s, op); }
  }

  /** A write of the current generation gets its turn, and its session is installed. */
  lemma {:induction false} WriteInstalls(s: State, op: OpId) returns (more: seq<Event>)
    requires Inv(s) && Awaits(s, op)
    ensures SignsIn(s, more)
    decreases |s.queue|, if HeadIsNew(s) then 1 else 0
  {
    var t := Step(s, RunQueue);
    QueueMoves(s, op);
    StepKeepsInv(s, RunQueue);
    var rest;
    if t.ops[op].wait.Persisting? {
      rest := WriteInstalls(t, op);
    } else {
      rest := InstallNow(t, op);
    }
    SignsInAfter(s, RunQueue, rest);
    more := [RunQueue] + rest;
  }

  /** The head has not taken its first step. */
  predicate HeadIsNew(s: State) {
    s.queue != [] && match s.queue[0] case Write(_, _, _, started) => !started case Clear(_, _, read) => read.None?
  }

  /** A session on its way can still be put in place. */
  lemma ComesBack(s: State, op: OpId, session: Session) returns (more: seq<Event>)
    requires Inv(s) && MayYetInstall(s, op)
    ensures SignsIn(s, more)
  {
    if s.ops[op].wait.Requesting? {
      var e := RefreshOk(op, session);
      StepKeepsInv(s, e);
      WriteStays(s.queue, Write(op, s.generation, session.refresh, false), op);
      var rest := WriteInstalls(Step(s, e), op);
      SignsInAfter(s, e, rest);
      more := [e] + rest;
    } else {
      more := InstallNow(s, op);
    }
  }

  lemma ReadThenBack(s: State, op: OpId, session: Session) returns (more: seq<Event>)
    requires Inv(s) && s.keystore.Some? && Waits(s, op, Refresh) && s.ops[op].wait.Reading? && s.ops[op].captured == s.generation
    ensures SignsIn(s, more)
  {
    StepKeepsInv(s, ReadStored(op));
    var rest := ComesBack(Step(s, ReadStored(op)), op, session);
    SignsInAfter(s, ReadStored(op), rest);
    more := [ReadStored(op)] + rest;
  }

  lemma NewRefreshComesBack(s: State, session: Session) returns (more: seq<Event>)
    requires Inv(s) && s.keystore.Some? && (s.inFlight.Some? ==> s.inFlight.value.generation != s.generation)
    ensures SignsIn(s, more)
  {
    var op := Fresh(s.started.Keys);
    assert op !in s.started;
    StepKeepsInv(s, CallRefresh(op));
    var rest := ReadThenBack(Step(s, CallRefresh(op)), op, session);
    SignsInAfter(s, CallRefresh(op), rest);
    more := [CallRefresh(op)] + rest;
  }

  /** Callers join the refresh that is in flight, and it goes on from wherever it is. */
  lemma FlightComesBack(s: State, session: Session) returns (more: seq<Event>)
    requires Inv(s) && FlightInv(s) && s.keystore.Some?
    requires s.inFlight.Some? && s.inFlight.value.generation == s.generation
    ensures SignsIn(s, more)
  {
    var op := s.inFlight.value.op;
    assert OpFits(s, op);
    if s.ops[op].wait.Reading? {
      more := ReadThenBack(s, op, session);
    } else if s.ops[op].wait.Persisting? {
      more := WriteInstalls(s, op);
    } else if s.ops[op].wait.Settling? {
      StepKeepsInv(s, Finally(op));
      var rest := NewRefreshComesBack(Step(s, Finally(op)), session);
      SignsInAfter(s, Finally(op), rest);
      more := [Finally(op)] + rest;
    } else {
      more := ComesBack(s, op, session);
    }
  }

  lemma StoredTokenComesBack(s: State, session: Session) returns (more: seq<Event>)
    requires Inv(s) && FlightInv(s) && s.keystore.Some?
    ensures SignsIn(s, more)
  {
    if s.inFlight.Some? && s.inFlight.value.generation == s.generation {
      more := FlightComesBack(s, session);
    } else {
      more := NewRefreshComesBack(s, session);
    }
  }

  predicate WillWrite(s: State, i: nat) {
    i < |s.queue| && s.queue[i].Write? && (s.queue[i].started || s.queue[i].generation == s.generation)
  }

  lemma WriteComesUp(s: State, i: nat)
    requires WillWrite(s, i)
    ensures var t := DoRunQueue(s);
            t.keystore.Some? || (if HeadIsNew(s) && |t.queue| == |s.queue| then WillWrite(t, i) && !HeadIsNew(t)
                                 else i > 0 && WillWrite(t, i - 1) && |t.queue| < |s.queue|)
  {
  }

  /** A write that will go through fills the keystore. */
  lemma {:induction false} QueuedTokenComesBack(s: State, i: nat, session: Session) returns (more: seq<Event>)
    requires Inv(s) && FlightInv(s) && WillWrite(s, i)
    ensures SignsIn(s, more)
    decreases |s.queue|, if HeadIsNew(s) then 1 else 0
  {
    var t := Step(s, RunQueue);
    WriteComesUp(s, i);
    StepKeepsInv(s, RunQueue);
    StepKeepsFlight(s, RunQueue);
    var rest;
    if t.keystore.Some? {
      rest := StoredTokenComesBack(t, session);
    } else if |t.queue| == |s.queue| {
      rest := QueuedTokenComesBack(t, i, session);
    } else {
      rest := QueuedTokenComesBack(t, i - 1, session);
    }
    SignsInAfter(s, RunQueue, rest);
    more := [RunQueue] + rest;
  }

  /** Whatever is left of a session brings it back. */
  lemma LeftoverComesBack(s: State) returns (more: seq<Event>)
    requires Inv(s) && FlightInv(s) && s.access == None && !SignedOut(s)
    ensures SignsIn(s, more)
  {
    if s.keystore.Some? {
      more := StoredTokenComesBack(s, Session(0, 0, 0));
    } else if !NothingToWrite(s) {
      var i :| 0 <= i < |s.queue| && s.queue[i].Write? && (s.queue[i].started || s.queue[i].generation == s.generation);
      more := QueuedTokenComesBack(s, i, Session(0, 0, 0));
    } else {
      var op :| op in s.ops && MayYetInstall(s, op);
      more := ComesBack(s, op, Session(0, 0, 0));
    }
  }

  /** A user who is signed out, at whatever moment, stays signed out until the next sign-in if and only if
   *  the keystore is empty, no write that will go through is in its queue, and no operation of the current
   *  generation holds an answer or waits for one. */
  lemma SignedOutForGoodIff(stored: Option<Token>, events: seq<Event>)
    requires Run(Launched(stored), events).access == None
    ensures var s := Run(Launched(stored), events);
            (forall more | NoSignIn(more) :: Run(s, more).access == None) <==> SignedOut(s)
  {
    var s := Run(Launched(stored), events);
    RunKeepsInv(Launched(stored), events);
    RunKeepsFlight(Launched(stored), events);
    if SignedOut(s) {
      forall more | NoSignIn(more) ensures Run(s, more).access == None {
        StaysSignedOut(s, more);
      }
    } else {
      var more := LeftoverComesBack(s);
      assert NoSignIn(more) && Run(s, more).access != None;
    }
  }

  /** A refresh of the current generation has its token while the clear is still in the queue. */
  lemma RefreshBehindClear(s: State, token: Token)
    requires s.queue == [Clear(0, s.generation, None)] && s.access == None
    requires 1 in s.ops && s.ops[1] == Op(Refresh, s.generation, Requesting(token))
    ensures var t := Step(Step(s, RunQueue), RunQueue);
            t.queue == [] && t.access == None && t.keystore == None && MayYetInstall(t, 1)
  {
  }

  /** A logout can leave such an operation: a refresh that starts after it, and reads the keystore before
   *  its queued clear has run, belongs to the new generation -- and signs the user in again. */
  lemma LogoutUndone(token: Token, session: Session) returns (events: seq<Event>, more: seq<Event>)
    ensures NoSignIn(events) && CallLogout(0) in events
    ensures var s := Run(Launched(Some(token)), events);
            s.queue == [] && s.access == None && s.keystore == None && MayYetInstall(s, 1)
    ensures NoSignIn(more) && Run(Run(Launched(Some(token)), events), more).access.Some?
  {
    var s0 := Launched(Some(token));
    var first := [CallLogout(0), CallRefresh(1), ReadStored(1), RunQueue];
    events := first + [RunQueue];
    assert events[..4] == first && CallLogout(0) == events[0];
    RunFour(s0, CallLogout(0), CallRefresh(1), ReadStored(1), RunQueue);
    RefreshBehindClear(Step(Step(Step(s0, CallLogout(0)), CallRefresh(1)), ReadStored(1)), token);
    RunKeepsInv(s0, events);
    more := ComesBack(Run(s0, events), 1, session);
  }

  // ---- which token is stored -----------------------------------------------------------------------

  /** The server's answer, or the sign-in, gave this session to `op`. */
  predicate Given(events: seq<Event>, op: OpId, session: Session) {
    SignedIn(op, session) in events || RefreshOk(op, session) in events
  }

  predicate HasSession(o: Op) {
    o.wait.Persisting? || o.wait.Persisted?
  }

  /** A queued write is of the refresh token of the session its operation holds, and its operation's only one. */
  predicate WritesOwn(s: State) {
    && (forall i | 0 <= i < |s.queue| && s.queue[i].Write? ::
          && s.queue[i].op in s.ops && s.ops[s.queue[i].op].wait.Persisting?
          && s.queue[i].token == s.ops[s.queue[i].op].wait.session.refresh)
    && (forall i, j | 0 <= i < j < |s.queue| && s.queue[i].Write? && s.queue[j].Write? :: s.queue[i].op != s.queue[j].op)
  }

  lemma AppendKeepsWrites(s: State, t: State, task: Task)
    requires WritesOwn(s) && t.queue == s.queue + [task]
    requires forall i | 0 <= i < |s.queue| && s.queue[i].Write? :: s.queue[i].op in t.ops && t.ops[s.queue[i].op] == s.ops[s.queue[i].op]
    requires task.Write? ==> task.op in t.ops && t.ops[task.op].wait.Persisting? && task.token == t.ops[task.op].wait.session.refresh
    requires task.Write? && task.op in s.ops ==> !s.ops[task.op].wait.Persisting?
    ensures WritesOwn(t)
  {
  }

  lemma QueueKeepsWrites(s: State)
    requires WritesOwn(s) && s.queue != []
    ensures WritesOwn(DoRunQueue(s))
  {
    var t := DoRunQueue(s);
    if |t.queue| == |s.queue| {
      forall i | 0 <= i < |s.queue| ensures t.queue[i].op == s.queue[i].op && t.queue[i].Write? == s.queue[i].Write? {
      }
    } else {
      assert t.queue == s.queue[1..];
    }
  }

  lemma BeginKeepsWrites(s: State, e: Event)
    requires Inv(s) && WritesOwn(s) && (e.CallRefresh? || e.SignedIn? || e.CallLogout?)
    ensures WritesOwn(Step(s, e))
  {
    if e.op !in s.started {
      if e.SignedIn? {
        AppendKeepsWrites(s, Step(s, e), Write(e.op, s.generation + 1, e.session.refresh, false));
      } else if e.CallLogout? {
        AppendKeepsWrites(s, Step(s, e), Clear(e.op, s.generation + 1, None));
      }
    }
  }

  lemma RefreshKeepsWrites(s: State, e: Event)
    requires WritesOwn(s) && (e.ReadStored? || e.RefreshOk? || e.RefreshRejected? || e.RefreshFailed?)
    ensures WritesOwn(Step(s, e))
  {
    if Step(s, e).queue != s.queue {
      AppendKeepsWrites(s, Step(s, e), Step(s, e).queue[|s.queue|]);
    }
  }

  lemma OverKeepsWrites(s: State, e: Event)
    requires WritesOwn(s) && (e.Resume? || e.Finally?)
    ensures WritesOwn(Step(s, e))
  {
    assert Step(s, e).queue == s.queue;
  }

  lemma StepKeepsWrites(s: State, e: Event)
    requires Inv(s) && WritesOwn(s)
    ensures WritesOwn(Step(s, e))
  {
    if e.CallRefresh? || e.SignedIn? || e.CallLogout? {
      BeginKeepsWrites(s, e);
    } else if e.RunQueue? {
      if s.queue != [] { QueueKeepsWrites(s); }
    } else if e.Resume? || e.Finally? {
      OverKeepsWrites(s, e);
    } else {
      RefreshKeepsWrites(s, e);
    }
  }

  /** Whatever session is held, written or installed was given. */
  ghost predicate AllGiven(s: State, events: seq<Event>) {
    && (forall op | op in s.ops && HasSession(s.ops[op]) :: Given(events, op, s.ops[op].wait.session))
    && (forall i | 0 <= i < |s.installs| :: Given(events, s.installs[i].op, s.installs[i].session))
    && (s.touch.WrittenBy? ==> WasGiven(events, s.touch.op, s.touch.token))
  }

  predicate TokenOf(events: seq<Event>, op: OpId, session: Session, token: Token) {
    Given(events, op, session) && token == session.refresh
  }

  ghost predicate WasGiven(events: seq<Event>, op: OpId, token: Token) {
    exists session :: TokenOf(events, op, session, token)
  }

  lemma StillGiven(s: State, events: seq<Event>, e: Event)
    requires AllGiven(s, events)
    ensures AllGiven(s, events + [e])
  {
    if s.touch.WrittenBy? {
      var session :| TokenOf(events, s.touch.op, session, s.touch.token);
      assert TokenOf(events + [e], s.touch.op, session, s.touch.token);
    }
  }

  lemma QueueKeepsGiven(s: State, events: seq<Event>)
    requires AllGiven(s, events) && WritesOwn(s) && s.queue != []
    ensures AllGiven(DoRunQueue(s), events)
  {
    var head := s.queue[0];
    if head.Write? {
      assert TokenOf(events, head.op, s.ops[head.op].wait.session, head.token);
    }
  }

  lemma StepKeepsGiven(s: State, events: seq<Event>, e: Event)
    requires AllGiven(s, events) && WritesOwn(s)
    ensures AllGiven(Step(s, e), events + [e])
  {
    StillGiven(s, events, e);
    assert e in events + [e];
    if e.RunQueue? {
      if s.queue != [] { QueueKeepsGiven(s, events + [e]); }
    }
  }

  lemma {:induction false} RunKeepsWrites(s: State, events: seq<Event>)
    requires Inv(s) && WritesOwn(s)
    ensures WritesOwn(Run(s, events))
  {
    if events != [] {
      RunKeepsWrites(s, events[..|events| - 1]);
      RunKeepsInv(s, events[..|events| - 1]);
      StepKeepsWrites(Run(s, events[..|events| - 1]), events[|events| - 1]);
    }
  }

  lemma {:induction false} RunKeepsGiven(s: State, events: seq<Event>)
    requires Inv(s) && WritesOwn(s) && AllGiven(s, [])
    ensures AllGiven(Run(s, events), events)
  {
    if events != [] {
      var init, e := events[..|events| - 1], events[|events| - 1];
      RunKeepsGiven(s, init);
      RunKeepsWrites(s, init);
      StepKeepsGiven(Run(s, init), init, e);
      assert init + [e] == events;
    }
  }

  /** What an operation wrote to the keystore is the refresh token of a session that the server's answer, or
   *  the sign-in, gave to that operation; and so is what was installed. Over every run. */
  lemma StoredTokenWasGiven(stored: Option<Token>, events: seq<Event>)
    ensures var s := Run(Launched(stored), events);
            && (s.touch.WrittenBy? ==>
                  s.keystore == Some(s.touch.token)
                  && exists session :: Given(events, s.touch.op, session) && s.touch.token == session.refresh)
            && (forall i | 0 <= i < |s.installs| :: Given(events, s.installs[i].op, s.installs[i].session))
  {
    RunKeepsInv(Launched(stored), events);
    RunKeepsGiven(Launched(stored), events);
    var s := Run(Launched(stored), events);
    if s.touch.WrittenBy? {
      var session :| TokenOf(events, s.touch.op, session, s.touch.token);
    }
  }

  // ---- what is stored for whom is signed in ----------------------------------------------------------

  /** The token of `op` has just been written, and the stretch behind its `await` has yet to run. */
  predicate JustWrote(s: State, op: OpId) {
    op in s.ops && s.ops[op].wait.Persisted? && s.ops[op].wait.written
  }

  predicate NobodyJustWrote(s: State) {
    forall op | op in s.ops :: !JustWrote(s, op)
  }

  /** That stretch runs before the next keystore call returns: it waits for nothing but the write. */
  predicate Prompt(stored: Option<Token>, events: seq<Event>) {
    events != [] ==>
      && Prompt(stored, events[..|events| - 1])
      && (events[|events| - 1].RunQueue? ==> NobodyJustWrote(Run(Launched(stored), events[..|events| - 1])))
  }

  /** The last write is of the operation that has just written; clears come before writes of the same
   *  generation; and while the current generation's clear is queued, nobody is signed in or about to be. */
  predicate InTurn(s: State) {
    && (forall op | op in s.ops && JustWrote(s, op) :: s.touch == WrittenBy(op, s.ops[op].captured, s.ops[op].wait.session.refresh))
    && (forall i, j | 0 <= i < j < |s.queue| && s.queue[i].Write? && s.queue[j].Clear? :: s.queue[i].generation < s.queue[j].generation)
    && ((exists i :: 0 <= i < |s.queue| && s.queue[i].Clear? && s.queue[i].generation == s.generation) ==>
          s.access == None && forall op | op in s.ops && JustWrote(s, op) :: s.ops[op].captured != s.generation)
  }

  /** Whoever is signed in has its refresh token stored, unless somebody else's was just written, or a newer
   *  mutation is still to come. */
  predicate StoredForInstalled(s: State) {
    s.access.Some? ==>
      && s.installs != []
      && var i := s.installs[|s.installs| - 1];
         || s.touch == WrittenBy(i.op, i.captured, i.session.refresh)
         || !NobodyJustWrote(s)
         || TouchGeneration(s.touch) < s.generation
  }

  predicate TurnInv(s: State) {
    InTurn(s) && StoredForInstalled(s)
  }

  lemma EndLocalInTurn(s: State, op: OpId)
    requires Inv(s) && TurnInv(s)
    ensures TurnInv(EndLocal(s, op))
  {
  }

  lemma TouchIsOld(s: State)
    requires QueueInv(s)
    ensures TouchGeneration(s.touch) <= s.generation
  {
    if s.queue != [] {
      assert s.queue[0].generation <= s.queue[|s.queue| - 1].generation;
    }
  }

  lemma SignInInTurn(s: State, op: OpId, session: Session)
    requires Inv(s) && TurnInv(s) && op !in s.ops
    ensures TurnInv(DoSignedIn(s, op, session))
  {
    TouchIsOld(s);
    assert s.queue != [] ==> s.queue[|s.queue| - 1].generation == s.generation;
  }

  lemma RefreshStartsInTurn(s: State, op: OpId)
    requires Inv(s) && TurnInv(s) && op !in s.ops
    ensures TurnInv(DoCallRefresh(s, op))
  {
    var t := DoCallRefresh(s, op);
    assert forall o :: o in s.ops && JustWrote(s, o) ==> o in t.ops && JustWrote(t, o);
  }

  lemma BeginInTurn(s: State, e: Event)
    requires Inv(s) && TurnInv(s) && (e.CallRefresh? || e.SignedIn? || e.CallLogout?)
    ensures TurnInv(Step(s, e))
  {
    if e.op !in s.started {
      assert e.op !in s.ops;
      if e.CallLogout? {
        EndLocalInTurn(s, e.op);
      } else if e.SignedIn? {
        SignInInTurn(s, e.op, e.session);
      } else {
        RefreshStartsInTurn(s, e.op);
      }
    }
  }

  lemma WaitInTurn(s: State, op: OpId, wait: Wait)
    requires TurnInv(s) && op in s.ops && !s.ops[op].wait.Persisted? && !wait.Persisted?
    ensures TurnInv(SetWait(s, op, wait))
  {
    var t := SetWait(s, op, wait);
    assert forall o :: o in s.ops ==> (JustWrote(t, o) <==> JustWrote(s, o));
  }

  lemma AnsweredInTurn(s: State, op: OpId, session: Session)
    requires Inv(s) && TurnInv(s) && op in s.ops && s.ops[op].wait.Requesting?
    ensures TurnInv(DoRefreshOk(s, op, session))
  {
    var t := DoRefreshOk(s, op, session);
    assert forall o :: o in s.ops ==> (JustWrote(t, o) <==> JustWrote(s, o));
  }

  lemma RefreshInTurn(s: State, e: Event)
    requires Inv(s) && TurnInv(s) && (e.ReadStored? || e.RefreshOk? || e.RefreshRejected? || e.RefreshFailed?)
    ensures TurnInv(Step(s, e))
  {
    if Step(s, e) != s {
      if e.RefreshOk? {
        AnsweredInTurn(s, e.op, e.session);
      } else {
        EndLocalInTurn(s, e.op);
        WaitInTurn(EndLocal(s, e.op), e.op, Clearing);
        WaitInTurn(s, e.op, Settling);
        if e.ReadStored? && s.keystore.Some? { WaitInTurn(s, e.op, Requesting(s.keystore.value)); }
      }
    }
  }

  lemma WriteTurnInTurn(s: State)
    requires Inv(s) && TurnInv(s) && WritesOwn(s) && NobodyJustWrote(s) && s.queue != [] && s.queue[0].Write?
    ensures TurnInv(DoRunQueue(s))
  {
    var t, head := DoRunQueue(s), s.queue[0];
    assert head.op in s.ops && s.ops[head.op].captured == head.generation;
    if head.started {
      assert JustWrote(t, head.op);
      assert forall i | 0 <= i < |t.queue| :: t.queue[i] == s.queue[i + 1];
    }
  }

  /** The clear reads what is stored. */
  lemma ClearReadsInTurn(s: State)
    requires TurnInv(s) && NobodyJustWrote(s) && s.queue != [] && s.queue[0].Clear? && s.queue[0].read.None?
    ensures TurnInv(DoRunQueue(s))
  {
    var t := DoRunQueue(s);
    assert t.ops == s.ops;
    assert forall i | 0 <= i < |s.queue| :: t.queue[i].generation == s.queue[i].generation && t.queue[i].Clear? == s.queue[i].Clear?;
  }

  /** The clear is done. */
  lemma ClearRunsInTurn(s: State)
    requires Inv(s) && TurnInv(s) && NobodyJustWrote(s) && s.queue != [] && s.queue[0].Clear? && s.queue[0].read.Some?
    ensures TurnInv(DoRunQueue(s))
  {
    var t := DoRunQueue(s);
    assert NobodyJustWrote(t);
    assert t.queue == s.queue[1..] && s.queue[0].generation <= s.generation by { TouchIsOld(s); }
  }

  lemma ClearTurnInTurn(s: State)
    requires Inv(s) && TurnInv(s) && NobodyJustWrote(s) && s.queue != [] && s.queue[0].Clear?
    ensures TurnInv(DoRunQueue(s))
  {
    if s.queue[0].read.None? { ClearReadsInTurn(s); } else { ClearRunsInTurn(s); }
  }

  /** The session is put in place, or handed back; its operation is over, or has its `finally` to run. */
  lemma InstallInTurn(s: State, op: OpId)
    requires Inv(s) && TurnInv(s) && op in s.ops && JustWrote(s, op)
    ensures TurnInv(DoResume(s, op))
  {
    var t := DoResume(s, op);
    TouchIsOld(s);
    assert s.touch == WrittenBy(op, s.ops[op].captured, s.ops[op].wait.session.refresh);
    assert forall o :: o in t.ops && JustWrote(t, o) ==> o in s.ops && JustWrote(s, o) && t.ops[o] == s.ops[o];
  }

  /** Those who have just written are the same. */
  lemma SameWriters(s: State, t: State)
    requires TurnInv(s) && t == s.(ops := t.ops, revoked := t.revoked)
    requires forall o | o in t.ops && JustWrote(t, o) :: o in s.ops && s.ops[o] == t.ops[o]
    requires forall o | o in s.ops && JustWrote(s, o) :: o in t.ops && t.ops[o] == s.ops[o]
    ensures TurnInv(t)
  {
    assert forall o | o in s.ops && JustWrote(s, o) :: JustWrote(t, o);
    assert forall o | o in t.ops && JustWrote(t, o) :: JustWrote(s, o);
  }

  lemma OtherResumeInTurn(s: State, op: OpId)
    requires TurnInv(s) && op in s.ops && !JustWrote(s, op)
    ensures TurnInv(DoResume(s, op))
  {
    if s.ops[op].wait.Persisted? || s.ops[op].wait.Cleared? {
      SameWriters(s, DoResume(s, op));
    }
  }

  lemma ResumeInTurn(s: State, op: OpId)
    requires Inv(s) && TurnInv(s) && op in s.ops
    ensures TurnInv(DoResume(s, op))
  {
    if JustWrote(s, op) { InstallInTurn(s, op); } else { OtherResumeInTurn(s, op); }
  }

  lemma FinallyInTurn(s: State, op: OpId)
    requires TurnInv(s) && op in s.ops && s.ops[op].wait.Settling?
    ensures TurnInv(DoFinally(s, op))
  {
    assert forall o :: o in DoFinally(s, op).ops ==> o in s.ops && (JustWrote(DoFinally(s, op), o) <==> JustWrote(s, o));
  }

  lemma StepInTurn(s: State, e: Event)
    requires Inv(s) && WritesOwn(s) && TurnInv(s) && (e.RunQueue? ==> NobodyJustWrote(s))
    ensures TurnInv(Step(s, e))
  {
    if e.CallRefresh? || e.SignedIn? || e.CallLogout? {
      BeginInTurn(s, e);
    } else if e.RunQueue? {
      if s.queue != [] {
        if s.queue[0].Write? { WriteTurnInTurn(s); } else { ClearTurnInTurn(s); }
      }
    } else if e.Resume? {
      if e.op in s.ops { ResumeInTurn(s, e.op); }
    } else if e.Finally? {
      if Step(s, e) != s { FinallyInTurn(s, e.op); }
    } else {
      RefreshInTurn(s, e);
    }
  }

  lemma {:induction false} RunInTurn(stored: Option<Token>, events: seq<Event>)
    requires Prompt(stored, events)
    ensures TurnInv(Run(Launched(stored), events))
  {
    if events != [] {
      var init := events[..|events| - 1];
      RunInTurn(stored, init);
      RunKeepsInv(Launched(stored), init);
      RunKeepsWrites(Launched(stored), init);
      StepInTurn(Run(Launched(stored), init), events[|events| - 1]);
    }
  }

  /** The keystore holds the refresh token of the very session that is in place, as the server gave it -- or,
   *  for the moment until its stretch runs, that of the operation which has just written. */
  predicate SessionStored(s: State, events: seq<Event>) {
    if NobodyJustWrote(s)
    then s.installs != []
         && var i := s.installs[|s.installs| - 1];
            Given(events, i.op, i.session) && s.access == Some(i.session.access) && s.user == Some(i.session.user)
            && s.keystore == Some(i.session.refresh)
    else forall op | op in s.ops && JustWrote(s, op) ::
           Given(events, op, s.ops[op].wait.session) && s.keystore == Some(s.ops[op].wait.session.refresh)
  }

  lemma DrainedIsStored(s: State, events: seq<Event>)
    requires Inv(s) && TurnInv(s) && AllGiven(s, events) && s.access.Some? && s.queue == []
    ensures SessionStored(s, events)
  {
    assert TouchGeneration(s.touch) == s.generation;
  }

  /** Whenever a user is signed in and the queue has drained, the session in place is the one stored. */
  lemma SignedInIsStored(stored: Option<Token>, events: seq<Event>)
    requires Prompt(stored, events)
    requires Run(Launched(stored), events).access.Some? && Run(Launched(stored), events).queue == []
    ensures SessionStored(Run(Launched(stored), events), events)
  {
    RunKeepsInv(Launched(stored), events);
    RunKeepsGiven(Launched(stored), events);
    RunInTurn(stored, events);
    DrainedIsStored(Run(Launched(stored), events), events);
  }

  // ---- the manager itself --------------------------------------------------------------------------

  /** The closure of `createSessionManager`. Each method is one synchronous stretch between `await`s
   *  (or, for the queue, one keystore call); together they are the events above. */
  class SessionManager {
    var accessToken: Option<Token>
    var user: Option<User>
    var generation: nat
    var inFlight: Option<Flight>
    var storageQueue: seq<Task>
    var keystore: Option<Token>
    var ops: map<OpId, Op>
    var revoked: seq<Token>
    ghost var installs: seq<Install>
    ghost var touch: Touch
    ghost var lastEnd: nat
    ghost var started: map<OpId, nat>
    ghost const launch: Option<Token>

    ghost function View(): State
      reads this
    {
      State(accessToken, user, generation, inFlight, storageQueue, keystore, ops, revoked,
            installs, touch, lastEnd, started, launch)
    }

    constructor (stored: Option<Token>)
      ensures View() == Launched(stored)
    {
      accessToken, user, generation, inFlight := None, None, 0, None;
      storageQueue, keystore, ops, revoked := [], stored, map[], [];
      installs, touch, lastEnd, started, launch := [], Untouched, 0, map[], stored;
    }

    /** `queued`, of a write or a clear. */
    method Enqueue(task: Task)
      modifies this`storageQueue
      ensures storageQueue == old(storageQueue) + [task]
    {
      storageQueue := storageQueue + [task];
    }

    method SetWait(op: OpId, wait: Wait)
      requires op in ops
      modifies this`ops
      ensures ops == old(ops)[op := old(ops)[op].(wait := wait)]
    {
      ops := ops[op := ops[op].(wait := wait)];
    }

    /** `clearLocal` up to its `await`: everything in flight is stale from here on. */
    method ClearLocal(op: OpId)
      modifies this
      ensures View() == EndLocal(old(View()), op)
      ensures generation == old(generation) + 1 && accessToken == None && user == None
      ensures storageQueue == old(storageQueue) + [Clear(op, generation, None)] && keystore == old(keystore)
      ensures (ops, inFlight, revoked) == (old(ops), old(inFlight), old(revoked))
    {
      generation := generation + 1;
      accessToken := None;
      user := None;
      Enqueue(Clear(op, generation, None));
      lastEnd := generation;
    }

    /** `refreshNow`: joins the refresh in flight, unless it belongs to an older generation. */
    method RefreshNow(op: OpId)
      requires op !in started
      modifies this
      ensures View() == Step(old(View()), CallRefresh(op))
      ensures inFlight.Some? && inFlight.value.generation == generation == old(generation)
      ensures old(inFlight).Some? && old(inFlight).value.generation == generation ==> View() == old(View())
      ensures !(old(inFlight).Some? && old(inFlight).value.generation == generation) ==>
                inFlight == Some(Flight(generation, op)) && ops == old(ops)[op := Op(Refresh, generation, Reading)]
      ensures (keystore, accessToken, user, storageQueue, revoked) == (old(keystore), old(accessToken), old(user), old(storageQueue), old(revoked))
    {
      var joined := inFlight;
      if joined.Some? && joined.value.generation != generation { joined := None; }
      if joined.Some? { return; }
      ops := ops[op := Op(Refresh, generation, Reading)];
      started := started[op := generation];
      inFlight := Some(Flight(generation, op));
    }

    method StoredRead(op: OpId)
      requires op in ops && ops[op].kind == Refresh && ops[op].wait.Reading?
      modifies this
      ensures View() == Step(old(View()), ReadStored(op))
      ensures keystore == old(keystore)
      ensures keystore.None? ==> generation == old(generation) + 1 && accessToken == None
      ensures keystore.Some? ==> ops[op].wait == Requesting(keystore.value) && storageQueue == old(storageQueue)
      ensures keystore.None? ==> user == None && ops[op].wait == Clearing && storageQueue == old(storageQueue) + [Clear(op, generation, None)]
      ensures keystore.Some? ==> accessToken == old(accessToken) && user == old(user) && generation == old(generation)
      ensures ops.Keys == old(ops.Keys) && forall o | o in ops && o != op :: ops[o] == old(ops)[o]
    {
      match keystore {
        case None =>
          ClearLocal(op);
          SetWait(op, Clearing);
        case Some(token) =>
          SetWait(op, Requesting(token));
      }
    }

    method RefreshAnswered(op: OpId, session: Session)
      requires op in ops && ops[op].kind == Refresh && ops[op].wait.Requesting?
      modifies this
      ensures View() == Step(old(View()), RefreshOk(op, session))
      ensures var mine := old(ops)[op].captured == generation;
              storageQueue == old(storageQueue) + (if mine then [Write(op, generation, session.refresh, false)] else [])
              && revoked == old(revoked) + (if mine then [] else [session.refresh])
      ensures ops == old(ops)[op := old(ops)[op].(wait := if old(ops)[op].captured == generation then Persisting(session) else Settling)]
      ensures (keystore, accessToken, user, generation) == (old(keystore), old(accessToken), old(user), old(generation))
    {
      var startedAt := ops[op].captured;
      if generation != startedAt {
        revoked := revoked + [session.refresh];
        SetWait(op, Settling);
      } else {
        Enqueue(Write(op, startedAt, session.refresh, false));
        SetWait(op, Persisting(session));
      }
    }

    /** A 401 or 403 ends the session this refresh belongs to, never a newer one. */
    method RefreshRejected(op: OpId)
      requires op in ops && ops[op].kind == Refresh && ops[op].wait.Requesting?
      modifies this
      ensures View() == Step(old(View()), Event.RefreshRejected(op))
      ensures old(ops)[op].captured == old(generation) ==> accessToken == None && generation == old(generation) + 1
      ensures old(ops)[op].captured != old(generation) ==>
                accessToken == old(accessToken) && user == old(user) && generation == old(generation) && storageQueue == old(storageQueue)
      ensures ops == old(ops)[op := old(ops)[op].(wait := if old(ops)[op].captured == old(generation) then Clearing else Settling)]
      ensures old(ops)[op].captured == old(generation) ==> user == None && storageQueue == old(storageQueue) + [Clear(op, generation, None)]
      ensures keystore == old(keystore) && revoked == old(revoked)
    {
      if generation == ops[op].captured {
        ClearLocal(op);
        SetWait(op, Clearing);
      } else {
        SetWait(op, Settling);
      }
    }

    /** Offline, a timeout or a 5xx: the token is kept. */
    method RefreshFailed(op: OpId)
      requires op in ops && ops[op].kind == Refresh && ops[op].wait.Requesting?
      modifies this
      ensures View() == Step(old(View()), Event.RefreshFailed(op))
      ensures (keystore, accessToken, user, generation, storageQueue)
              == (old(keystore), old(accessToken), old(user), old(generation), old(storageQueue))
      ensures ops == old(ops)[op := old(ops)[op].(wait := Settling)] && revoked == old(revoked)
    {
      SetWait(op, Settling);
    }

    /** `start`, up to its `await`. */
    method Start(op: OpId, session: Session)
      requires op !in started
      modifies this
      ensures View() == Step(old(View()), SignedIn(op, session))
      ensures generation == old(generation) + 1 && op in ops && ops[op].captured == generation
      ensures storageQueue == old(storageQueue) + [Write(op, generation, session.refresh, false)]
      ensures ops == old(ops)[op := Op(Login, generation, Persisting(session))]
      ensures (keystore, accessToken, user, inFlight, revoked) == (old(keystore), old(accessToken), old(user), old(inFlight), old(revoked))
    {
      generation := generation + 1;
      ops := ops[op := Op(Login, generation, Persisting(session))];
      started := started[op := generation];
      Enqueue(Write(op, generation, session.refresh, false));
    }

    method Logout(op: OpId)
      requires op !in started
      modifies this
      ensures View() == Step(old(View()), CallLogout(op))
      ensures accessToken == None && user == None && generation == old(generation) + 1
      ensures storageQueue == old(storageQueue) + [Clear(op, generation, None)]
      ensures ops == old(ops)[op := Op(Kind.Logout, generation, Clearing)] && (keystore, revoked, inFlight) == (old(keystore), old(revoked), old(inFlight))
    {
      ClearLocal(op);
      ops := ops[op := Op(Kind.Logout, generation, Clearing)];
      started := started[op := generation];
    }

    /** The queue's head takes its next step; a write re-checks the generation when its turn comes. */
    method RunStorageQueue()
      requires storageQueue != []
      modifies this
      ensures View() == Step(old(View()), RunQueue)
      ensures generation == old(generation) && |storageQueue| <= |old(storageQueue)|
      ensures var head := old(storageQueue)[0];
              head.Write? && !head.started && head.generation != generation ==>
                keystore == old(keystore) && storageQueue == old(storageQueue)[1..]
      ensures var head, rest := old(storageQueue)[0], old(storageQueue)[1..];
              match head
              case Write(o, g, token, started) =>
                if !started && g == generation then storageQueue == [Write(o, g, token, true)] + rest && keystore == old(keystore) && ops == old(ops)
                else storageQueue == rest && keystore == (if started then Some(token) else old(keystore))
                     && (o in old(ops) && old(ops)[o].wait.Persisting? ==>
                           ops == old(ops)[o := old(ops)[o].(wait := Persisted(old(ops)[o].wait.session, started))])
              case Clear(o, g, read) =>
                if read.None? then storageQueue == [Clear(o, g, Some(old(keystore)))] + rest && keystore == old(keystore) && ops == old(ops)
                else storageQueue == rest && keystore == None
                     && (o in old(ops) && old(ops)[o].wait.Clearing? ==> ops == old(ops)[o := old(ops)[o].(wait := Cleared(read.value))])
      ensures (accessToken, user, inFlight, revoked) == (old(accessToken), old(user), old(inFlight), old(revoked))
    {
      var rest := storageQueue[1..];
      match storageQueue[0] {
        case Write(op, g, token, begun) =>
          if begun {
            keystore := Some(token);
            touch := WrittenBy(op, g, token);
            storageQueue := rest;
          } else if generation != g {
            storageQueue := rest;
          } else {
            storageQueue := [Write(op, g, token, true)] + rest;
            return;
          }
          if op in ops && ops[op].wait.Persisting? {
            SetWait(op, Persisted(ops[op].wait.session, begun));
          }
        case Clear(op, g, None) =>
          storageQueue := [Clear(op, g, Some(keystore))] + rest;
        case Clear(op, g, Some(stored)) =>
          keystore := None;
          touch := ClearedBy(g);
          storageQueue := rest;
          if op in ops && ops[op].wait.Clearing? {
            SetWait(op, Cleared(stored));
          }
      }
    }

    method CloseOp(op: OpId)
      requires op in ops
      modifies this`ops
      ensures ops == Finish(old(View()), op).ops
    {
      if ops[op].kind == Refresh {
        SetWait(op, Settling);
      } else {
        ops := ops - {op};
      }
    }

    /** After `persist`: keep the session only if the write went through and the generation held. */
    method AfterPersist(op: OpId)
      requires op in ops && ops[op].wait.Persisted?
      modifies this
      ensures View() == Step(old(View()), Resume(op))
      ensures var o := old(ops)[op];
              var kept := o.wait.written && generation == o.captured;
              accessToken == (if kept then Some(o.wait.session.access) else old(accessToken))
              && revoked == old(revoked) + (if kept then [] else [o.wait.session.refresh])
      ensures var o := old(ops)[op];
              user == if o.wait.written && generation == o.captured then Some(o.wait.session.user) else old(user)
      ensures ops == if old(ops)[op].kind == Refresh then old(ops)[op := old(ops)[op].(wait := Settling)] else old(ops) - {op}
      ensures (keystore, storageQueue, generation, inFlight) == (old(keystore), old(storageQueue), old(generation), old(inFlight))
    {
      var o := ops[op];
      var session := o.wait.session;
      CloseOp(op);
      if !o.wait.written || generation != o.captured {
        revoked := revoked + [session.refresh];
      } else {
        accessToken := Some(session.access);
        user := Some(session.user);
        installs := installs + [Install(op, o.captured, session)];
      }
    }

    /** After the queued clear; a logout then revokes what was stored. */
    method AfterClear(op: OpId)
      requires op in ops && ops[op].wait.Cleared?
      modifies this
      ensures View() == Step(old(View()), Resume(op))
      ensures var o := old(ops)[op];
              revoked == old(revoked) + if o.kind == Kind.Logout && o.wait.stored.Some? then [o.wait.stored.value] else []
      ensures ops == if old(ops)[op].kind == Refresh then old(ops)[op := old(ops)[op].(wait := Settling)] else old(ops) - {op}
      ensures (keystore, storageQueue, accessToken, user, generation, inFlight)
              == (old(keystore), old(storageQueue), old(accessToken), old(user), old(generation), old(inFlight))
    {
      var o := ops[op];
      CloseOp(op);
      if o.kind == Kind.Logout && o.wait.stored.Some? {
        revoked := revoked + [o.wait.stored.value];
      }
    }

    /** The refresh's `finally`. */
    method Settled(op: OpId)
      requires op in ops && ops[op].kind == Refresh && ops[op].wait.Settling?
      modifies this
      ensures View() == Step(old(View()), Finally(op))
      ensures inFlight == if old(inFlight).Some? && old(inFlight).value.op == op then None else old(inFlight)
      ensures ops == old(ops) - {op}
      ensures (keystore, storageQueue, accessToken, user, generation, revoked)
              == (old(keystore), old(storageQueue), old(accessToken), old(user), old(generation), old(revoked))
    {
      ops := ops - {op};
      if inFlight.Some? && inFlight.value.op == op { inFlight := None; }
    }
  }
}

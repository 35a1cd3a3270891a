/**
 * Uploads of key packages by one device that run at the same time (`addKeyPackages` of
 * apps/api/src/db/e2ee.ts, in the transaction of apps/api/src/e2ee/e2ee.service.ts).
 *
 * In module KeyPackages an upload is one step. Here it is what Postgres runs under READ COMMITTED: an
 * insert that nobody else sees, a trim that goes by what was committed when it began, and a commit. A trim
 * may have to wait for another that deletes the same rows; which rows it deletes was decided before.
 */
module UploadRaces {
  import opened Common
  import K = KeyPackages

  type OpId = nat

  const PER_UPLOAD := 50
  const DEVICE: K.DeviceId := 0

  /** An upload under way. `at`, `peers` and `since` are history: how many trims there had been, the uploads
   *  that were under way at its own, and what others have committed since. */
  datatype Upload =
    | Inserted(own: K.Rows)
    | Trimmed(own: K.Rows, kept: set<K.PackageId>, dropped: set<K.PackageId>, at: nat, peers: set<OpId>, since: set<K.PackageId>)

  /** Of the committed uploads, the one that trimmed last, and what was committed after its trim by others. */
  datatype Last = Last(kept: set<K.PackageId>, late: set<K.PackageId>, at: nat, peers: set<OpId>)

  /** `rows` are the committed one-time packages of the device; `finished`, `clock` and `last` are history. */
  datatype State = State(rows: K.Rows, open: map<OpId, Upload>, finished: set<OpId>, clock: nat, last: Last)

  const Empty := State(map[], map[], {}, 0, Last({}, {}, 0, {}))

  datatype Event =
    | Insert(op: OpId, packages: set<K.PackageId>, now: int)
    | Trim(op: OpId, kept: set<K.PackageId>)
    | Commit(op: OpId)
    | Abort(op: OpId)
    | Take(packages: set<K.PackageId>)     // a claim commits, or the device is removed

  // ---- the steps -----------------------------------------------------------------------------------

  /** The trim keeps the newest of what it sees: the committed rows and its own. */
  predicate MayTrim(s: State, op: OpId, kept: set<K.PackageId>) {
    op in s.open && s.open[op].Inserted?
    && K.IsNewest(s.rows + s.open[op].own, s.rows.Keys + s.open[op].own.Keys, kept)
  }

  function DoTrim(s: State, op: OpId, kept: set<K.PackageId>): State
    requires op in s.open
  {
    var own := s.open[op].own;
    s.(clock := s.clock + 1,
       open := s.open[op := Trimmed(own, kept, s.rows.Keys + own.Keys - kept, s.clock + 1, s.open.Keys - {op}, {})])
  }

  /** What an upload adds when it commits. */
  function Added(u: Upload): set<K.PackageId>
    requires u.Trimmed?
  {
    u.own.Keys - u.dropped
  }

  function Noted(u: Upload, added: set<K.PackageId>): Upload {
    if u.Trimmed? then u.(since := u.since + added) else u
  }

  function Concluded(last: Last, u: Upload): Last
    requires u.Trimmed?
  {
    if u.at > last.at then Last(u.kept, u.since, u.at, u.peers) else last.(late := last.late + Added(u))
  }

  function DoCommit(s: State, op: OpId): State
    requires op in s.open && s.open[op].Trimmed?
  {
    var u := s.open[op];
    State((s.rows - u.dropped) + (u.own - u.dropped),
          map o | o in s.open && o != op :: Noted(s.open[o], Added(u)),
          s.finished + {op},
          s.clock,
          Concluded(s.last, u))
  }

  /** At most `m` uploads of the device are under way at a time. */
  function Step(m: nat, s: State, e: Event): State {
    match e
    case Insert(op, packages, now) =>
      if op in s.open || op in s.finished || |s.open| >= m || |packages| > PER_UPLOAD then s
      else s.(open := s.open[op := Inserted(K.Inserted(map[], DEVICE, packages, now))])
    case Trim(op, kept) => if MayTrim(s, op, kept) then DoTrim(s, op, kept) else s
    case Commit(op) => if op in s.open && s.open[op].Trimmed? then DoCommit(s, op) else s
    case Abort(op) => if op in s.open then s.(open := s.open - {op}, finished := s.finished + {op}) else s
    case Take(packages) => s.(rows := s.rows - packages)
  }

  function Run(m: nat, events: seq<Event>): State {
    if events == [] then Empty else Step(m, Run(m, events[..|events| - 1]), events[|events| - 1])
  }

  // ---- the invariant -------------------------------------------------------------------------------

  /** How many of these uploads are over. */
  function Over(peers: set<OpId>, open: map<OpId, Upload>): nat {
    |peers - open.Keys|
  }

  predicate PeersOk(m: nat, s: State, peers: set<OpId>) {
    |peers| < m && peers <= s.open.Keys + s.finished
  }

  /** Nothing is committed but what the last trim kept, and what its peers have added since. */
  predicate LastOk(m: nat, s: State) {
    && |s.last.kept| <= K.MAX_PACKAGES && s.rows.Keys <= s.last.kept + s.last.late
    && |s.last.late| <= PER_UPLOAD * Over(s.last.peers, s.open)
    && PeersOk(m, s, s.last.peers) && s.last.at <= s.clock
  }

  predicate OwnOk(u: Upload) {
    && |u.own| <= PER_UPLOAD
    && (u.Trimmed? ==> |u.kept| <= K.MAX_PACKAGES && Added(u) <= u.kept)
  }

  /** An upload that would be the last to have trimmed; or one that was under way at the last trim. */
  predicate TrimOk(m: nat, s: State, op: OpId)
    requires op in s.open && s.open[op].Trimmed?
  {
    var u := s.open[op];
    && PeersOk(m, s, u.peers) && op !in u.peers
    && u.at <= s.clock && u.at != s.last.at
    && (u.at < s.last.at ==> op in s.last.peers)
    && (u.at > s.last.at ==>
          && s.rows.Keys <= u.kept + u.dropped + u.since
          && |u.since| <= PER_UPLOAD * Over(u.peers, s.open))
  }

  /** Of two trims, the earlier one was under way at the later one. */
  predicate Ordered(s: State, o: OpId, p: OpId)
    requires o in s.open && p in s.open && s.open[o].Trimmed? && s.open[p].Trimmed?
  {
    s.open[o].at != s.open[p].at && (s.open[o].at < s.open[p].at ==> o in s.open[p].peers)
  }

  predicate AllOrdered(s: State) {
    forall o, p | o in s.open && p in s.open && o != p && s.open[o].Trimmed? && s.open[p].Trimmed? :: Ordered(s, o, p)
  }

  predicate Inv(m: nat, s: State) {
    && |s.open| <= m && s.open.Keys !! s.finished
    && LastOk(m, s)
    && (forall op | op in s.open :: OwnOk(s.open[op]))
    && (forall op | op in s.open && s.open[op].Trimmed? :: TrimOk(m, s, op))
    && AllOrdered(s)
  }

  // ---- every step keeps it -------------------------------------------------------------------------

  lemma OneIsOver(peers: set<OpId>, open: map<OpId, Upload>, less: map<OpId, Upload>, op: OpId)
    requires op in open && less.Keys == open.Keys - {op}
    ensures Over(peers, less) == Over(peers, open) + if op in peers then 1 else 0
  {
    if op in peers {
      assert peers - less.Keys == (peers - open.Keys) + {op};
    } else {
      assert peers - less.Keys == peers - open.Keys;
    }
  }

  lemma OwnSize(packages: set<K.PackageId>, now: int)
    ensures K.Inserted(map[], DEVICE, packages, now).Keys == packages
    ensures |K.Inserted(map[], DEVICE, packages, now)| == |packages|
  {
    var own := K.Inserted(map[], DEVICE, packages, now);
    assert own.Keys == packages;
    assert |own| == |own.Keys|;
  }

  lemma InsertKeepsTrims(m: nat, s: State, op: OpId, own: K.Rows)
    requires Inv(m, s) && op !in s.open && op !in s.finished
    ensures var t := s.(open := s.open[op := Inserted(own)]);
            LastOk(m, t) && AllOrdered(t) && forall o | o in t.open && t.open[o].Trimmed? :: TrimOk(m, t, o)
  {
    var t := s.(open := s.open[op := Inserted(own)]);
    assert t.open.Keys == s.open.Keys + {op};
    SamePeers(s.last.peers, s, op, t);
    forall o | o in t.open && t.open[o].Trimmed? ensures TrimOk(m, t, o) {
      assert TrimOk(m, s, o);
      SamePeers(s.open[o].peers, s, op, t);
    }
    forall o, p | o in t.open && p in t.open && o != p && t.open[o].Trimmed? && t.open[p].Trimmed? ensures Ordered(t, o, p) {
      assert Ordered(s, o, p);
    }
  }

  lemma OpenKeepsOwn(m: nat, s: State, op: OpId, own: K.Rows)
    requires Inv(m, s) && op !in s.open && |s.open| < m && |own| <= PER_UPLOAD
    ensures var open := s.open[op := Inserted(own)];
            |open| <= m && forall o | o in open :: OwnOk(open[o])
  {
    var open := s.open[op := Inserted(own)];
    assert open.Keys == s.open.Keys + {op};
    assert |open| == |open.Keys| && |s.open| == |s.open.Keys|;
    forall o | o in open ensures OwnOk(open[o]) {
      if o != op { assert OwnOk(s.open[o]); }
    }
  }

  lemma OpenKeepsInv(m: nat, s: State, op: OpId, own: K.Rows)
    requires Inv(m, s) && op !in s.open && op !in s.finished && |s.open| < m && |own| <= PER_UPLOAD
    ensures Inv(m, s.(open := s.open[op := Inserted(own)]))
  {
    InsertKeepsTrims(m, s, op, own);
    OpenKeepsOwn(m, s, op, own);
  }

  lemma InsertKeepsInv(m: nat, s: State, e: Event)
    requires Inv(m, s) && e.Insert?
    ensures Inv(m, Step(m, s, e))
  {
    if !(e.op in s.open || e.op in s.finished || |s.open| >= m || |e.packages| > PER_UPLOAD) {
      OwnSize(e.packages, e.now);
      OpenKeepsInv(m, s, e.op, K.Inserted(map[], DEVICE, e.packages, e.now));
    }
  }

  /** A new upload is nobody's peer. */
  lemma SamePeers(peers: set<OpId>, s: State, op: OpId, t: State)
    requires peers <= s.open.Keys + s.finished && op !in s.open && op !in s.finished && t.open.Keys == s.open.Keys + {op}
    ensures Over(peers, t.open) == Over(peers, s.open)
  {
    assert peers - t.open.Keys == peers - s.open.Keys;
  }

  lemma FewPeers(open: map<OpId, Upload>, op: OpId)
    requires op in open
    ensures |open.Keys - {op}| < |open|
  {
    assert open.Keys == (open.Keys - {op}) + {op};
    assert |open| == |open.Keys|;
  }

  lemma NewOwnOk(s: State, op: OpId, kept: set<K.PackageId>)
    requires MayTrim(s, op, kept) && OwnOk(s.open[op])
    ensures OwnOk(DoTrim(s, op, kept).open[op])
  {
  }

  lemma NewTrimOk(m: nat, s: State, op: OpId, kept: set<K.PackageId>)
    requires Inv(m, s) && MayTrim(s, op, kept)
    ensures TrimOk(m, DoTrim(s, op, kept), op) && OwnOk(DoTrim(s, op, kept).open[op])
  {
    FewPeers(s.open, op);
    NewOwnOk(s, op, kept);
    assert DoTrim(s, op, kept).open.Keys == s.open.Keys;
  }

  lemma TrimKeepsTrims(m: nat, s: State, op: OpId, kept: set<K.PackageId>)
    requires Inv(m, s) && MayTrim(s, op, kept)
    ensures var t := DoTrim(s, op, kept);
            LastOk(m, t) && forall o | o in t.open && t.open[o].Trimmed? :: TrimOk(m, t, o)
  {
    var t := DoTrim(s, op, kept);
    NewTrimOk(m, s, op, kept);
    assert t.open.Keys == s.open.Keys;
    forall o | o in t.open && t.open[o].Trimmed? ensures TrimOk(m, t, o) {
      if o != op { OldTrimOk(m, s, op, kept, o); }
    }
  }

  lemma OldTrimOk(m: nat, s: State, op: OpId, kept: set<K.PackageId>, o: OpId)
    requires Inv(m, s) && MayTrim(s, op, kept) && o in s.open && o != op && s.open[o].Trimmed?
    ensures TrimOk(m, DoTrim(s, op, kept), o)
  {
    assert TrimOk(m, s, o);
    assert DoTrim(s, op, kept).open.Keys == s.open.Keys;
  }

  lemma TrimKeepsOrder(m: nat, s: State, op: OpId, kept: set<K.PackageId>)
    requires Inv(m, s) && MayTrim(s, op, kept)
    ensures AllOrdered(DoTrim(s, op, kept))
  {
    var t := DoTrim(s, op, kept);
    forall o, p | o in t.open && p in t.open && o != p && t.open[o].Trimmed? && t.open[p].Trimmed? ensures Ordered(t, o, p) {
      if o != op && p != op {
        assert Ordered(s, o, p);
      } else {
        assert TrimOk(m, s, if o == op then p else o);
      }
    }
  }

  lemma TrimKeepsInv(m: nat, s: State, op: OpId, kept: set<K.PackageId>)
    requires Inv(m, s) && MayTrim(s, op, kept)
    ensures Inv(m, DoTrim(s, op, kept))
  {
    var t := DoTrim(s, op, kept);
    NewTrimOk(m, s, op, kept);
    TrimKeepsTrims(m, s, op, kept);
    TrimKeepsOrder(m, s, op, kept);
    assert t.open.Keys == s.open.Keys;
    assert |t.open| == |t.open.Keys| == |s.open.Keys| == |s.open|;
    forall o | o in t.open ensures OwnOk(t.open[o]) {
      assert OwnOk(s.open[o]);
    }
  }

  /** What was committed and is not dropped, and what the upload adds. */
  lemma CommittedRows(s: State, op: OpId)
    requires op in s.open && s.open[op].Trimmed?
    ensures DoCommit(s, op).rows.Keys == (s.rows.Keys - s.open[op].dropped) + Added(s.open[op])
  {
  }

  lemma CommitKeepsLast(m: nat, s: State, op: OpId)
    requires Inv(m, s) && op in s.open && s.open[op].Trimmed?
    ensures LastOk(m, DoCommit(s, op))
  {
    var u, t := s.open[op], DoCommit(s, op);
    assert TrimOk(m, s, op) && OwnOk(u);
    CommittedRows(s, op);
    OneIsOver(u.peers, s.open, t.open, op);
    OneIsOver(s.last.peers, s.open, t.open, op);
    AddedIsSmall(u);
    SmallUnion(s.last.late, Added(u));
  }

  lemma AddedIsSmall(u: Upload)
    requires u.Trimmed? && OwnOk(u)
    ensures |Added(u)| <= PER_UPLOAD
  {
    Subset(Added(u), u.own.Keys);
    assert |u.own| == |u.own.Keys|;
  }

  lemma {:induction false} Subset<T>(a: set<T>, b: set<T>)
    requires a <= b
    ensures |a| <= |b|
  {
    if a != {} {
      var x :| x in a;
      Subset(a - {x}, b - {x});
    }
  }

  lemma SmallUnion(a: set<K.PackageId>, b: set<K.PackageId>)
    ensures |a + b| <= |a| + |b|
  {
    assert |a + b| == |a| + |b| - |a * b|;
  }

  /** Another upload sees that `op` has committed. */
  lemma CommitKeepsTrim(m: nat, s: State, op: OpId, o: OpId)
    requires Inv(m, s) && op in s.open && s.open[op].Trimmed?
    requires o in s.open && o != op && s.open[o].Trimmed?
    ensures TrimOk(m, DoCommit(s, op), o)
  {
    var u, x, t := s.open[op], s.open[o], DoCommit(s, op);
    assert TrimOk(m, s, op) && TrimOk(m, s, o) && OwnOk(u) && Ordered(s, op, o) && Ordered(s, o, op);
    CommittedRows(s, op);
    OneIsOver(x.peers, s.open, t.open, op);
    AddedIsSmall(u);
    SmallUnion(x.since, Added(u));
  }

  lemma CommitKeepsInv(m: nat, s: State, op: OpId)
    requires Inv(m, s) && op in s.open && s.open[op].Trimmed?
    ensures Inv(m, DoCommit(s, op))
  {
    var t := DoCommit(s, op);
    CommitKeepsLast(m, s, op);
    assert t.open.Keys == s.open.Keys - {op};
    assert |t.open| == |t.open.Keys| && |s.open| == |s.open.Keys|;
    forall o | o in t.open ensures OwnOk(t.open[o]) {
      assert OwnOk(s.open[o]);
    }
    forall o | o in t.open && t.open[o].Trimmed? ensures TrimOk(m, t, o) {
      CommitKeepsTrim(m, s, op, o);
    }
    forall o, p | o in t.open && p in t.open && o != p && t.open[o].Trimmed? && t.open[p].Trimmed? ensures Ordered(t, o, p) {
      assert Ordered(s, o, p);
    }
  }

  lemma AbortKeepsInv(m: nat, s: State, op: OpId)
    requires Inv(m, s) && op in s.open
    ensures Inv(m, Step(m, s, Abort(op)))
  {
    var t := Step(m, s, Abort(op));
    assert t.open.Keys == s.open.Keys - {op};
    assert |t.open| == |t.open.Keys| && |s.open| == |s.open.Keys|;
    OneIsOver(s.last.peers, s.open, t.open, op);
    forall o | o in t.open && t.open[o].Trimmed? ensures TrimOk(m, t, o) {
      assert TrimOk(m, s, o);
      OneIsOver(s.open[o].peers, s.open, t.open, op);
    }
    forall o, p | o in t.open && p in t.open && o != p && t.open[o].Trimmed? && t.open[p].Trimmed? ensures Ordered(t, o, p) {
      assert Ordered(s, o, p);
    }
  }

  lemma TakeKeepsInv(m: nat, s: State, packages: set<K.PackageId>)
    requires Inv(m, s)
    ensures Inv(m, s.(rows := s.rows - packages))
  {
    var t := s.(rows := s.rows - packages);
    assert t.rows.Keys <= s.rows.Keys;
    forall o | o in t.open && t.open[o].Trimmed? ensures TrimOk(m, t, o) {
      assert TrimOk(m, s, o);
    }
    forall o, p | o in t.open && p in t.open && o != p && t.open[o].Trimmed? && t.open[p].Trimmed? ensures Ordered(t, o, p) {
      assert Ordered(s, o, p);
    }
  }

  lemma StepKeepsInv(m: nat, s: State, e: Event)
    requires Inv(m, s)
    ensures Inv(m, Step(m, s, e))
  {
    if e.Insert? {
      InsertKeepsInv(m, s, e);
    } else if e.Trim? {
      if MayTrim(s, e.op, e.kept) { TrimKeepsInv(m, s, e.op, e.kept); }
    } else if e.Commit? {
      if e.op in s.open && s.open[e.op].Trimmed? { CommitKeepsInv(m, s, e.op); }
    } else if e.Abort? {
      if e.op in s.open { AbortKeepsInv(m, s, e.op); }
    } else {
      TakeKeepsInv(m, s, e.packages);
    }
  }

  lemma {:induction false} RunKeepsInv(m: nat, events: seq<Event>)
    requires m > 0
    ensures Inv(m, Run(m, events))
  {
    if events != [] {
      RunKeepsInv(m, events[..|events| - 1]);
      StepKeepsInv(m, Run(m, events[..|events| - 1]), events[|events| - 1]);
    }
  }

  // ---- the bound -----------------------------------------------------------------------------------

  /** With at most `m` uploads under way at a time, a device never has more than 50 packages over the limit
   *  for each of them but one. */
  lemma FewOverTheLimit(m: nat, events: seq<Event>)
    requires m > 0
    ensures |Run(m, events).rows| <= K.MAX_PACKAGES + PER_UPLOAD * (m - 1)
  {
    RunKeepsInv(m, events);
    var s := Run(m, events);
    Subset(s.rows.Keys, s.last.kept + s.last.late);
    SmallUnion(s.last.kept, s.last.late);
    Subset(s.last.peers - s.open.Keys, s.last.peers);
    assert |s.rows| == |s.rows.Keys|;
  }

  // ---- the bound is reached ------------------------------------------------------------------------

  /** Packages in batches of fifty, numbered in the order of their uploads. */
  function Span(from: nat, to: nat): (s: set<K.PackageId>)
    ensures forall p :: p in s <==> from <= p < to
  {
    set p: nat | p < to && IsIn(p, from, to)
  }

  predicate IsIn(p: nat, from: nat, to: nat) {
    from <= p < to
  }

  lemma {:induction false} SpanSize(from: nat, to: nat)
    requires from <= to
    ensures |Span(from, to)| == to - from
  {
    if from < to {
      SpanSize(from, to - 1);
      assert Span(from, to) == Span(from, to - 1) + {to - 1};
    }
  }

  function Batch(j: nat): set<K.PackageId> {
    Span(PER_UPLOAD * j, PER_UPLOAD * (j + 1))
  }

  /** Each package is as old as its batch. */
  predicate Dated(rows: K.Rows) {
    forall p | p in rows :: rows[p].createdAt == p / PER_UPLOAD
  }

  predicate IsBatch(u: Upload, j: nat) {
    u.own.Keys == Batch(j) && Dated(u.own)
  }

  /** `n` uploads, one after the other. */
  predicate Stocked(s: State, n: nat) {
    s.rows.Keys == Span(0, PER_UPLOAD * n) && Dated(s.rows) && s.open == map[] && s.finished == Span(0, n)
  }

  lemma RunOne(m: nat, events: seq<Event>, e: Event)
    ensures Run(m, events + [e]) == Step(m, Run(m, events), e)
  {
    assert (events + [e])[..|events|] == events;
  }

  lemma OpenBatch(m: nat, s: State, j: nat)
    requires j !in s.open && j !in s.finished && |s.open| < m
    ensures var t := Step(m, s, Insert(j, Batch(j), j));
            && j in t.open && t.open[j].Inserted? && IsBatch(t.open[j], j)
            && t == s.(open := s.open[j := t.open[j]])
  {
    SpanSize(PER_UPLOAD * j, PER_UPLOAD * (j + 1));
    OwnSize(Batch(j), j);
  }

  /** With room for all of it, a trim drops nothing. */
  lemma KeepAll(s: State, j: nat)
    requires j in s.open && s.open[j].Inserted? && IsBatch(s.open[j], j) && j < 4
    requires s.rows.Keys == Span(0, PER_UPLOAD * j)
    ensures MayTrim(s, j, Span(0, PER_UPLOAD * (j + 1)))
  {
    SpanSize(0, PER_UPLOAD * (j + 1));
    assert s.rows.Keys + s.open[j].own.Keys == Span(0, PER_UPLOAD * (j + 1));
  }

  /** Nothing is dropped, so everything is there after the commit. */
  lemma CommitAlone(s: State, j: nat)
    requires s.open.Keys == {j} && s.open[j].Trimmed? && IsBatch(s.open[j], j) && s.open[j].dropped == {}
    requires s.rows.Keys == Span(0, PER_UPLOAD * j) && Dated(s.rows) && s.finished == Span(0, j)
    ensures Stocked(DoCommit(s, j), j + 1)
  {
    var t := DoCommit(s, j);
    CommittedRows(s, j);
    assert t.rows.Keys == Span(0, PER_UPLOAD * j) + Batch(j) == Span(0, PER_UPLOAD * (j + 1));
    assert t.open.Keys == {};
    assert t.finished == Span(0, j) + {j} == Span(0, j + 1);
  }

  lemma TrimAlone(s: State, j: nat)
    requires s.open.Keys == {j} && s.open[j].Inserted? && IsBatch(s.open[j], j) && j < 4
    requires s.rows.Keys == Span(0, PER_UPLOAD * j)
    ensures var t := DoTrim(s, j, Span(0, PER_UPLOAD * (j + 1)));
            MayTrim(s, j, Span(0, PER_UPLOAD * (j + 1)))
            && t.rows == s.rows && t.finished == s.finished && t.open.Keys == {j}
            && t.open[j].Trimmed? && IsBatch(t.open[j], j) && t.open[j].dropped == {}
  {
    KeepAll(s, j);
  }

  /** An upload trims and commits with nothing in between. */
  lemma LandAlone(m: nat, s: State, j: nat)
    requires s.open.Keys == {j} && s.open[j].Inserted? && IsBatch(s.open[j], j) && j < 4
    requires s.rows.Keys == Span(0, PER_UPLOAD * j) && Dated(s.rows) && s.finished == Span(0, j)
    ensures Stocked(Step(m, Step(m, s, Trim(j, Span(0, PER_UPLOAD * (j + 1)))), Commit(j)), j + 1)
  {
    var e := Trim(j, Span(0, PER_UPLOAD * (j + 1)));
    TrimAlone(s, j);
    CommitAlone(Step(m, s, e), j);
  }

  lemma StockOne(m: nat, before: seq<Event>, j: nat) returns (events: seq<Event>)
    requires m > 0 && j < 4 && Stocked(Run(m, before), j)
    ensures Stocked(Run(m, events), j + 1)
  {
    var e1, e2, e3 := Insert(j, Batch(j), j), Trim(j, Span(0, PER_UPLOAD * (j + 1))), Commit(j);
    OpenBatch(m, Run(m, before), j);
    LandAlone(m, Step(m, Run(m, before), e1), j);
    RunOne(m, before, e1);
    RunOne(m, before + [e1], e2);
    RunOne(m, before + [e1] + [e2], e3);
    events := before + [e1] + [e2] + [e3];
  }

  lemma {:induction false} Stock(m: nat, n: nat) returns (events: seq<Event>)
    requires m > 0 && n <= 4
    ensures Stocked(Run(m, events), n)
  {
    if n == 0 {
      events := [];
    } else {
      var before := Stock(m, n - 1);
      events := StockOne(m, before, n - 1);
    }
  }

  /** An upload that has decided to drop the oldest batch, and not its own. */
  predicate DropsOldest(u: Upload, j: nat) {
    u.Trimmed? && IsBatch(u, j) && u.dropped == Batch(0)
  }

  /** `k` uploads have trimmed the full stock, each without seeing the others. */
  predicate Racing(s: State, k: nat) {
    && s.rows.Keys == Span(0, K.MAX_PACKAGES) && Dated(s.rows)
    && s.finished == Span(0, 4) && s.open.Keys == Span(4, 4 + k)
    && forall j | j in s.open :: DropsOldest(s.open[j], j)
  }

  lemma DropOldest(s: State, j: nat)
    requires j in s.open && s.open[j].Inserted? && IsBatch(s.open[j], j) && 4 <= j
    requires s.rows.Keys == Span(0, K.MAX_PACKAGES) && Dated(s.rows)
    ensures MayTrim(s, j, Span(PER_UPLOAD, K.MAX_PACKAGES) + Batch(j))
    ensures DropsOldest(DoTrim(s, j, Span(PER_UPLOAD, K.MAX_PACKAGES) + Batch(j)).open[j], j)
  {
    var kept, all := Span(PER_UPLOAD, K.MAX_PACKAGES) + Batch(j), s.rows.Keys + s.open[j].own.Keys;
    SpanSize(PER_UPLOAD, K.MAX_PACKAGES);
    SpanSize(PER_UPLOAD * j, PER_UPLOAD * (j + 1));
    assert Span(PER_UPLOAD, K.MAX_PACKAGES) !! Batch(j);
    Subset(kept, all);
    assert all - kept == Batch(0);
  }

  /** One more upload has inserted. */
  predicate Joins(s: State, t: State, j: nat) {
    && t.rows == s.rows && t.finished == s.finished && t.open.Keys == s.open.Keys + {j} && j !in s.open
    && t.open[j].Inserted? && IsBatch(t.open[j], j)
    && forall o | o in s.open :: t.open[o] == s.open[o]
  }

  lemma RoomToRace(m: nat, s: State, k: nat)
    requires k < m && Racing(s, k)
    ensures |s.open| < m && 4 + k !in s.open && 4 + k !in s.finished
  {
    SpanSize(4, 4 + k);
    assert |s.open| == |s.open.Keys|;
  }

  lemma InsertJoins(m: nat, s: State, j: nat)
    requires j !in s.open && j !in s.finished && |s.open| < m
    ensures Joins(s, Step(m, s, Insert(j, Batch(j), j)), j)
  {
    OpenBatch(m, s, j);
  }

  lemma TrimmedJoins(s: State, t: State, k: nat, kept: set<K.PackageId>)
    requires Racing(s, k) && Joins(s, t, 4 + k) && DropsOldest(DoTrim(t, 4 + k, kept).open[4 + k], 4 + k)
    ensures Racing(DoTrim(t, 4 + k, kept), k + 1)
  {
    OneMoreRacing(s, DoTrim(t, 4 + k, kept), k);
  }

  lemma TrimJoins(m: nat, s: State, t: State, k: nat, kept: set<K.PackageId>)
    requires Racing(s, k) && Joins(s, t, 4 + k) && kept == Span(PER_UPLOAD, K.MAX_PACKAGES) + Batch(4 + k)
    ensures Racing(Step(m, t, Trim(4 + k, kept)), k + 1)
  {
    DropOldest(t, 4 + k);
    TrimmedJoins(s, t, k, kept);
  }

  lemma OneMoreRacing(s: State, t: State, k: nat)
    requires Racing(s, k) && t.rows == s.rows && t.finished == s.finished
    requires t.open.Keys == s.open.Keys + {4 + k} && DropsOldest(t.open[4 + k], 4 + k)
    requires forall o | o in s.open :: t.open[o] == s.open[o]
    ensures Racing(t, k + 1)
  {
    assert Span(4, 4 + k) + {4 + k} == Span(4, 4 + (k + 1));
  }

  lemma RaceOne(m: nat, before: seq<Event>, k: nat) returns (events: seq<Event>)
    requires k < m && Racing(Run(m, before), k)
    ensures Racing(Run(m, events), k + 1)
  {
    var j := 4 + k;
    var e1, e2 := Insert(j, Batch(j), j), Trim(j, Span(PER_UPLOAD, K.MAX_PACKAGES) + Batch(j));
    RoomToRace(m, Run(m, before), k);
    InsertJoins(m, Run(m, before), j);
    TrimJoins(m, Run(m, before), Step(m, Run(m, before), e1), k, e2.kept);
    RunOne(m, before, e1);
    RunOne(m, before + [e1], e2);
    events := before + [e1] + [e2];
  }

  lemma {:induction false} Race(m: nat, k: nat) returns (events: seq<Event>)
    requires 0 < m && k <= m
    ensures Racing(Run(m, events), k)
  {
    if k == 0 {
      events := Stock(m, 4);
    } else {
      var before := Race(m, k - 1);
      events := RaceOne(m, before, k - 1);
    }
  }

  /** `i` of the `k` uploads have committed. */
  predicate Landed(s: State, k: nat, i: nat) {
    && s.rows.Keys == Span(if i == 0 then 0 else PER_UPLOAD, PER_UPLOAD * (4 + i))
    && s.open.Keys == Span(4 + i, 4 + k)
    && forall j | j in s.open :: DropsOldest(s.open[j], j)
  }

  lemma LandNext(s: State, k: nat, i: nat)
    requires i < k && Landed(s, k, i)
    ensures 4 + i in s.open && s.open[4 + i].Trimmed? && Landed(DoCommit(s, 4 + i), k, i + 1)
  {
    var j := 4 + i;
    assert DropsOldest(s.open[j], j);
    var t := DoCommit(s, j);
    CommittedRows(s, j);
    assert Added(s.open[j]) == Batch(j);
    assert t.rows.Keys == Span(PER_UPLOAD, PER_UPLOAD * (4 + (i + 1)));
    assert t.open.Keys == Span(4 + i, 4 + k) - {j} == Span(4 + (i + 1), 4 + k);
    forall o | o in t.open ensures DropsOldest(t.open[o], o) {
      assert DropsOldest(s.open[o], o);
    }
  }

  lemma LandOne(m: nat, before: seq<Event>, k: nat, i: nat) returns (events: seq<Event>)
    requires i < k && Landed(Run(m, before), k, i)
    ensures Landed(Run(m, events), k, i + 1)
  {
    LandNext(Run(m, before), k, i);
    RunOne(m, before, Commit(4 + i));
    events := before + [Commit(4 + i)];
  }

  lemma {:induction false} Land(m: nat, k: nat, i: nat) returns (events: seq<Event>)
    requires 0 < m && i <= k <= m
    ensures Landed(Run(m, events), k, i)
  {
    if i == 0 {
      events := Race(m, k);
    } else {
      var before := Land(m, k, i - 1);
      events := LandOne(m, before, k, i - 1);
    }
  }

  /** No run leaves a device with more packages than that. */
  ghost predicate AtMost(m: nat, bound: nat) {
    forall events :: |Run(m, events).rows| <= bound
  }

  lemma BoundIsReached(m: nat) returns (events: seq<Event>)
    requires m > 0
    ensures |Run(m, events).rows| == K.MAX_PACKAGES + PER_UPLOAD * (m - 1)
  {
    events := Land(m, m, m);
    SpanSize(PER_UPLOAD, PER_UPLOAD * (4 + m));
    assert |Run(m, events).rows| == |Run(m, events).rows.Keys|;
  }

  /** With at most `m` uploads under way at a time, 200 packages and 50 more for each upload but one is
   *  exactly how many a device can have: over every interleaving, and it happens. */
  lemma BoundIff(m: nat, bound: nat)
    requires m > 0
    ensures AtMost(m, bound) <==> K.MAX_PACKAGES + PER_UPLOAD * (m - 1) <= bound
  {
    if K.MAX_PACKAGES + PER_UPLOAD * (m - 1) <= bound {
      forall events ensures |Run(m, events).rows| <= bound {
        FewOverTheLimit(m, events);
      }
    } else {
      var events := BoundIsReached(m);
    }
  }

  /** So the limit holds of every run if and only if a device never has two uploads under way. */
  lemma LimitIffOneAtATime(m: nat)
    requires m > 0
    ensures AtMost(m, K.MAX_PACKAGES) <==> m == 1
  {
    BoundIff(m, K.MAX_PACKAGES);
  }
}

/**
 * The key packages of the MLS directory (apps/api/src/db/e2ee.ts, and the claim of
 * apps/api/src/e2ee/e2ee.service.ts).
 *
 * A claim is a transaction of several steps: it takes the oldest one-time package of each device,
 * skipping rows that other claims hold, then reads the last-resort packages of the devices it found
 * none for, and commits or rolls back. The rows it takes stay locked, and in place, until then.
 */
module KeyPackages {
  import opened Common

  type DeviceId = nat
  type PackageId = nat
  type Key = nat
  type OpId = nat

  const MAX_PACKAGES := 200

  /** A one-time row of `e2ee_key_packages`. */
  datatype Package = Package(device: DeviceId, createdAt: int)

  type Rows = map<PackageId, Package>

  /** A claim under way: the rows it holds, and the last-resort packages it has read. */
  datatype Claim = Claim(devices: set<DeviceId>, picked: map<DeviceId, PackageId>, fallback: Option<map<DeviceId, Key>>)

  datatype Given = OneTime(package: PackageId) | LastResort(key: Key)

  /** `uploaded`, `finished` and `handed` are history: whose every package ever was, the claims that are over,
   *  and what each committed claim gave for each device. */
  datatype State = State(
    rows: Rows,
    lastResort: map<DeviceId, Key>,
    claims: map<OpId, Claim>,
    uploaded: map<PackageId, DeviceId>,
    finished: set<OpId>,
    handed: map<(OpId, DeviceId), Given>)

  const Empty := State(map[], map[], map[], map[], {}, map[])

  datatype Event =
    | Upload(device: DeviceId, packages: set<PackageId>, lastResort: Option<Key>, now: int, kept: set<PackageId>)
    | Pick(op: OpId, devices: set<DeviceId>, picked: map<DeviceId, PackageId>)
    | ReadLastResort(op: OpId)
    | Commit(op: OpId)
    | Abort(op: OpId)
    | Revoke(device: DeviceId)

  // ---- queries -------------------------------------------------------------------------------------

  function PackagesOf(rows: Rows, d: DeviceId): set<PackageId> {
    set p | p in rows && rows[p].device == d
  }

  predicate IsLocked(claims: map<OpId, Claim>, p: PackageId) {
    exists op, d :: op in claims && d in claims[op].picked && claims[op].picked[d] == p
  }

  /** The one-time packages that no claim holds: what SKIP LOCKED leaves. */
  function FreeIn(rows: Rows, claims: map<OpId, Claim>, d: DeviceId): set<PackageId> {
    set p | p in PackagesOf(rows, d) && !IsLocked(claims, p)
  }

  function FreeOf(s: State, d: DeviceId): set<PackageId> {
    FreeIn(s.rows, s.claims, d)
  }

  predicate IsOldest(rows: Rows, ps: set<PackageId>, p: PackageId) {
    p in ps && p in rows && forall q | q in ps && q in rows :: rows[p].createdAt <= rows[q].createdAt
  }

  /** `order by created_at desc limit 200`. */
  predicate IsNewest(rows: Rows, all: set<PackageId>, kept: set<PackageId>) {
    && kept <= all
    && |kept| == Min(|all|, MAX_PACKAGES)
    && forall p, q | p in kept && q in all - kept && p in rows && q in rows :: rows[q].createdAt <= rows[p].createdAt
  }

  // ---- the steps -----------------------------------------------------------------------------------

  function Inserted(rows: Rows, d: DeviceId, packages: set<PackageId>, now: int): Rows {
    rows + map p | p in packages :: Package(d, now)
  }

  /** The trim can go ahead: it has chosen the newest, and deletes no row a claim holds. */
  predicate MayTrim(s: State, e: Event)
    requires e.Upload?
  {
    var rows := Inserted(s.rows, e.device, e.packages, e.now);
    && e.packages !! s.uploaded.Keys
    && IsNewest(rows, PackagesOf(rows, e.device), e.kept)
    && forall p | p in PackagesOf(rows, e.device) - e.kept :: !IsLocked(s.claims, p)
  }

  function Uploaded(s: State, e: Event): State
    requires e.Upload?
  {
    var rows := Inserted(s.rows, e.device, e.packages, e.now);
    s.(rows := rows - (PackagesOf(rows, e.device) - e.kept),
       lastResort := if e.lastResort.Some? then s.lastResort[e.device := e.lastResort.value] else s.lastResort,
       uploaded := s.uploaded + map p | p in e.packages :: e.device)
  }

  /** The packages a claim's first statement can take: the oldest free one of each device that has any. */
  predicate MayPick(s: State, op: OpId, devices: set<DeviceId>, picked: map<DeviceId, PackageId>) {
    && op !in s.claims && op !in s.finished
    && picked.Keys == (set d | d in devices && FreeOf(s, d) != {})
    && (forall d | d in picked :: IsOldest(s.rows, FreeOf(s, d), picked[d]))
  }

  function Gifts(c: Claim): map<DeviceId, Given> {
    var fallback := if c.fallback.Some? then c.fallback.value else map[];
    map d | d in c.picked.Keys + fallback.Keys :: if d in c.picked then OneTime(c.picked[d]) else LastResort(fallback[d])
  }

  function Addressed(op: OpId, gifts: map<DeviceId, Given>): map<(OpId, DeviceId), Given> {
    map d | d in gifts :: (op, d) := gifts[d]
  }

  function Committed(s: State, op: OpId): State
    requires op in s.claims
  {
    var c := s.claims[op];
    s.(rows := s.rows - c.picked.Values,
       claims := s.claims - {op},
       finished := s.finished + {op},
       handed := s.handed + Addressed(op, Gifts(c)))
  }

  function Step(s: State, e: Event): State {
    match e
    case Upload(_, _, _, _, _) => if MayTrim(s, e) then Uploaded(s, e) else s
    case Pick(op, devices, picked) =>
      if MayPick(s, op, devices, picked) then s.(claims := s.claims[op := Claim(devices, picked, None)]) else s
    case ReadLastResort(op) =>
      if op !in s.claims || s.claims[op].fallback.Some? then s
      else
        var c := s.claims[op];
        s.(claims := s.claims[op := c.(fallback :=
             Some(map d | d in c.devices - c.picked.Keys && d in s.lastResort :: s.lastResort[d]))])
    case Commit(op) => if op in s.claims && s.claims[op].fallback.Some? then Committed(s, op) else s
    case Abort(op) => if op in s.claims then s.(claims := s.claims - {op}, finished := s.finished + {op}) else s
    case Revoke(d) =>
      if exists p :: p in PackagesOf(s.rows, d) && IsLocked(s.claims, p) then s
      else s.(rows := s.rows - PackagesOf(s.rows, d), lastResort := s.lastResort - {d})
  }

  function Run(s: State, events: seq<Event>): State {
    if events == [] then s else Step(Run(s, events[..|events| - 1]), events[|events| - 1])
  }

  // ---- the invariant -------------------------------------------------------------------------------

  predicate Holds(s: State, op: OpId, d: DeviceId, p: PackageId) {
    op in s.claims && d in s.claims[op].picked && s.claims[op].picked[d] == p
  }

  /** A claim holds packages that exist, of the devices it takes them for; no two hold the same one. */
  ghost predicate LocksOk(s: State) {
    && (forall op: OpId, d: DeviceId, p: PackageId | Holds(s, op, d, p) :: p in s.rows && s.rows[p].device == d)
    && (forall op: OpId, d: DeviceId, o: OpId, c: DeviceId, p: PackageId | Holds(s, op, d, p) && Holds(s, o, c, p) :: op == o)
    && (forall op | op in s.claims :: op !in s.finished)
  }

  predicate Gave(s: State, op: OpId, d: DeviceId, p: PackageId) {
    (op, d) in s.handed && s.handed[(op, d)] == OneTime(p)
  }

  /** A one-time package that was handed out is gone, and was handed out once. */
  ghost predicate HandedOk(s: State) {
    && (forall op: OpId, d: DeviceId, p: PackageId | Gave(s, op, d, p) ::
          p !in s.rows && p in s.uploaded && s.uploaded[p] == d)
    && (forall op: OpId, d: DeviceId, o: OpId, c: DeviceId, p: PackageId | Gave(s, op, d, p) && Gave(s, o, c, p) ::
          op == o && d == c)
    && (forall k | k in s.handed :: k.0 in s.finished)
    && (forall p | p in s.rows :: p in s.uploaded && s.uploaded[p] == s.rows[p].device)
  }

  ghost predicate WithinLimit(s: State) {
    forall d: DeviceId :: |PackagesOf(s.rows, d)| <= MAX_PACKAGES
  }

  ghost predicate Inv(s: State) {
    LocksOk(s) && HandedOk(s) && WithinLimit(s)
  }

  // ---- every step keeps it -------------------------------------------------------------------------

  lemma SmallerSet<T>(a: set<T>, b: set<T>)
    requires a <= b
    ensures |a| <= |b|
  {
    var c := b - a;
    assert b == a + c && a !! c;
  }

  lemma FewerRows(s: State, rows: Rows)
    requires WithinLimit(s)
    requires forall p | p in rows :: p in s.rows && rows[p] == s.rows[p]
    ensures WithinLimit(s.(rows := rows))
  {
    forall d: DeviceId ensures |PackagesOf(rows, d)| <= MAX_PACKAGES {
      SmallerSet(PackagesOf(rows, d), PackagesOf(s.rows, d));
    }
  }

  lemma UploadKeepsLimit(s: State, e: Event)
    requires WithinLimit(s) && e.Upload? && MayTrim(s, e) && HandedOk(s)
    ensures WithinLimit(Uploaded(s, e))
    ensures PackagesOf(Uploaded(s, e).rows, e.device) == e.kept
  {
    var t := Uploaded(s, e);
    var rows := Inserted(s.rows, e.device, e.packages, e.now);
    assert PackagesOf(t.rows, e.device) == e.kept;
    forall d: DeviceId ensures |PackagesOf(t.rows, d)| <= MAX_PACKAGES {
      if d != e.device {
        SmallerSet(PackagesOf(t.rows, d), PackagesOf(s.rows, d));
      }
    }
  }

  lemma UploadKeepsInv(s: State, e: Event)
    requires Inv(s) && e.Upload? && MayTrim(s, e)
    ensures Inv(Uploaded(s, e))
  {
    var t := Uploaded(s, e);
    UploadKeepsLimit(s, e);
    UploadKeepsLocks(s, e);
    UploadKeepsHanded(s, e);
  }

  lemma UploadKeepsLocks(s: State, e: Event)
    requires LocksOk(s) && e.Upload? && MayTrim(s, e) && HandedOk(s)
    ensures LocksOk(Uploaded(s, e))
  {
    var t := Uploaded(s, e);
    forall op: OpId, d: DeviceId, p: PackageId | Holds(t, op, d, p) ensures p in t.rows && t.rows[p].device == d && Holds(s, op, d, p) {
      assert Holds(s, op, d, p);
      assert IsLocked(s.claims, p);
    }
  }

  lemma UploadKeepsHanded(s: State, e: Event)
    requires HandedOk(s) && e.Upload? && MayTrim(s, e)
    ensures HandedOk(Uploaded(s, e))
  {
    var t := Uploaded(s, e);
    forall op: OpId, d: DeviceId, p: PackageId | Gave(t, op, d, p)
      ensures Gave(s, op, d, p) && p !in t.rows && p in t.uploaded && t.uploaded[p] == d
    {
      assert Gave(s, op, d, p);
    }
  }

  lemma PickKeepsInv(s: State, op: OpId, devices: set<DeviceId>, picked: map<DeviceId, PackageId>)
    requires Inv(s) && MayPick(s, op, devices, picked)
    ensures Inv(s.(claims := s.claims[op := Claim(devices, picked, None)]))
  {
    var t := s.(claims := s.claims[op := Claim(devices, picked, None)]);
    forall o: OpId, d: DeviceId, p: PackageId | Holds(t, o, d, p)
      ensures p in t.rows && t.rows[p].device == d
      ensures o == op <==> !IsLocked(s.claims, p)
      ensures o != op ==> Holds(s, o, d, p)
    {
      if o == op {
        assert IsOldest(s.rows, FreeOf(s, d), picked[d]);
      } else {
        assert Holds(s, o, d, p);
      }
    }
    forall o: OpId, d: DeviceId, q: OpId, c: DeviceId, p: PackageId | Holds(t, o, d, p) && Holds(t, q, c, p) ensures o == q {
      assert o == op <==> q == op;
    }
    SameHanded(s, t);
    FewerRows(s, s.rows);
  }

  lemma SameHanded(s: State, t: State)
    requires HandedOk(s) && t.handed == s.handed && t.uploaded == s.uploaded && s.finished <= t.finished
    requires forall p | p in t.rows :: p in s.rows && t.rows[p] == s.rows[p]
    ensures HandedOk(t)
  {
    forall op: OpId, d: DeviceId, p: PackageId | Gave(t, op, d, p) ensures Gave(s, op, d, p) {
    }
  }

  /** Claims that hold no more than before, of rows that are still there. */
  lemma FewerLocks(s: State, t: State)
    requires LocksOk(s)
    requires forall op: OpId, d: DeviceId, p: PackageId | Holds(t, op, d, p) ::
               Holds(s, op, d, p) && p in t.rows && t.rows[p] == s.rows[p]
    requires forall op | op in t.claims :: op !in t.finished
    ensures LocksOk(t)
  {
  }

  lemma CommitKeepsInv(s: State, op: OpId)
    requires Inv(s) && op in s.claims
    ensures Inv(Committed(s, op))
  {
    var t := Committed(s, op);
    CommitKeepsLocks(s, op);
    CommitKeepsHanded(s, op);
    FewerRows(s, t.rows);
    assert forall d: DeviceId :: PackagesOf(t.rows, d) == PackagesOf(s.(rows := t.rows).rows, d);
  }

  lemma CommitKeepsLocks(s: State, op: OpId)
    requires LocksOk(s) && op in s.claims
    ensures LocksOk(Committed(s, op))
  {
    var t := Committed(s, op);
    forall o: OpId, d: DeviceId, p: PackageId | Holds(t, o, d, p)
      ensures Holds(s, o, d, p) && p in t.rows && t.rows[p] == s.rows[p]
    {
      assert Holds(s, o, d, p);
      if p in s.claims[op].picked.Values {
        var c :| c in s.claims[op].picked && s.claims[op].picked[c] == p;
        assert Holds(s, op, c, p);
      }
    }
    FewerLocks(s, t);
  }

  lemma CommitKeepsHanded(s: State, op: OpId)
    requires LocksOk(s) && HandedOk(s) && op in s.claims
    ensures HandedOk(Committed(s, op))
  {
    var t := Committed(s, op);
    var c := s.claims[op];
    forall o: OpId, d: DeviceId, p: PackageId | Gave(t, o, d, p)
      ensures if o == op then Holds(s, op, d, p) else Gave(s, o, d, p)
      ensures o == op <==> p in s.rows
      ensures p !in t.rows && p in t.uploaded && t.uploaded[p] == d
    {
      if o == op {
        assert (op, d) !in s.handed;
        assert Holds(s, op, d, p) && p in c.picked.Values;
      } else {
        assert (o, d) in s.handed;
        assert Gave(s, o, d, p);
      }
    }
    forall o: OpId, d: DeviceId, q: OpId, e: DeviceId, p: PackageId | Gave(t, o, d, p) && Gave(t, q, e, p)
      ensures o == q && d == e
    {
      assert o == op <==> q == op;
      assert t.uploaded[p] == d;
      assert o != op ==> Gave(s, o, d, p) && Gave(s, q, e, p);
    }
  }

  lemma RevokeKeepsInv(s: State, d: DeviceId)
    requires Inv(s) && forall p | p in PackagesOf(s.rows, d) :: !IsLocked(s.claims, p)
    ensures Inv(s.(rows := s.rows - PackagesOf(s.rows, d), lastResort := s.lastResort - {d}))
  {
    var t := s.(rows := s.rows - PackagesOf(s.rows, d), lastResort := s.lastResort - {d});
    forall op: OpId, c: DeviceId, p: PackageId | Holds(t, op, c, p)
      ensures Holds(s, op, c, p) && p in t.rows && t.rows[p] == s.rows[p]
    {
      assert Holds(s, op, c, p);
      assert IsLocked(s.claims, p);
    }
    FewerLocks(s, t);
    SameHanded(s, t);
    FewerRows(s, t.rows);
    assert forall c: DeviceId :: PackagesOf(t.rows, c) == PackagesOf(s.(rows := t.rows).rows, c);
  }

  lemma ClaimsKeepInv(s: State, t: State)
    requires Inv(s) && t == s.(claims := t.claims, finished := t.finished) && s.finished <= t.finished
    requires forall op | op in t.claims :: op !in t.finished && op in s.claims && t.claims[op].picked == s.claims[op].picked
    ensures Inv(t)
  {
    forall op: OpId, d: DeviceId, p: PackageId | Holds(t, op, d, p)
      ensures Holds(s, op, d, p) && p in t.rows && t.rows[p] == s.rows[p]
    {
      assert Holds(s, op, d, p);
    }
    FewerLocks(s, t);
    SameHanded(s, t);
    FewerRows(s, s.rows);
    assert forall c: DeviceId :: PackagesOf(t.rows, c) == PackagesOf(s.(rows := s.rows).rows, c);
  }

  lemma StepKeepsInv(s: State, e: Event)
    requires Inv(s)
    ensures Inv(Step(s, e))
  {
    match e
    case Upload(_, _, _, _, _) => if MayTrim(s, e) { UploadKeepsInv(s, e); }
    case Pick(op, devices, picked) => if MayPick(s, op, devices, picked) { PickKeepsInv(s, op, devices, picked); }
    case ReadLastResort(_) => ClaimsKeepInv(s, Step(s, e));
    case Commit(op) => if op in s.claims { CommitKeepsInv(s, op); }
    case Abort(_) => ClaimsKeepInv(s, Step(s, e));
    case Revoke(d) =>
      if forall p | p in PackagesOf(s.rows, d) :: !IsLocked(s.claims, p) { RevokeKeepsInv(s, d); }
  }

  lemma {:induction false} RunKeepsInv(events: seq<Event>)
    ensures Inv(Run(Empty, events))
  {
    if events == [] {
      forall d: DeviceId ensures PackagesOf(Empty.rows, d) == {} {
      }
    } else {
      RunKeepsInv(events[..|events| - 1]);
      StepKeepsInv(Run(Empty, events[..|events| - 1]), events[|events| - 1]);
    }
  }

  // ---- what holds over every run -------------------------------------------------------------------

  /** A one-time package is handed out at most once, for the device that uploaded it, and is then gone:
   *  over any interleaving of claims, uploads, rollbacks and removals. */
  lemma HandedOutOnce(events: seq<Event>, op: OpId, d: DeviceId, o: OpId, c: DeviceId, p: PackageId)
    requires Gave(Run(Empty, events), op, d, p)
    ensures var s := Run(Empty, events);
            && (Gave(s, o, c, p) ==> o == op && c == d)
            && p !in s.rows && p in s.uploaded && s.uploaded[p] == d
  {
    RunKeepsInv(events);
  }

  /** Two claims under way never hold the same package, so whichever commits, neither gives what the
   *  other does. */
  lemma ClaimsAreDisjoint(events: seq<Event>, op: OpId, o: OpId)
    requires op in Run(Empty, events).claims && o in Run(Empty, events).claims && op != o
    ensures Run(Empty, events).claims[op].picked.Values !! Run(Empty, events).claims[o].picked.Values
  {
    RunKeepsInv(events);
    var s := Run(Empty, events);
    forall p | p in s.claims[op].picked.Values ensures p !in s.claims[o].picked.Values {
      var d :| d in s.claims[op].picked && s.claims[op].picked[d] == p;
      assert Holds(s, op, d, p);
      assert forall c | c in s.claims[o].picked && s.claims[o].picked[c] == p :: Holds(s, o, c, p);
    }
  }

  /** No device ever has more than 200 one-time packages. */
  lemma NeverMoreThanTwoHundred(events: seq<Event>, d: DeviceId)
    ensures |PackagesOf(Run(Empty, events).rows, d)| <= 200
  {
    RunKeepsInv(events);
  }

  /** An upload leaves the newest of what the device had and sent: 200, or all of them if they are fewer;
   *  whatever it drops is no newer than anything it keeps, and no claim holds it. Other devices'
   *  packages and every claim are as before. */
  lemma UploadKeepsTheNewest(events: seq<Event>, e: Event)
    requires e.Upload? && MayTrim(Run(Empty, events), e)
    ensures var s := Run(Empty, events);
            var t := Step(s, e);
            var all := PackagesOf(s.rows, e.device) + e.packages;
            var kept := PackagesOf(t.rows, e.device);
            && kept <= all && |kept| == Min(|all|, 200)
            && (forall p, q | p in kept && q in all - kept :: CreatedAt(s, e, q) <= CreatedAt(s, e, p))
            && (forall d: DeviceId | d != e.device :: PackagesOf(t.rows, d) == PackagesOf(s.rows, d))
            && t.claims == s.claims && t.handed == s.handed
  {
    var s := Run(Empty, events);
    RunKeepsInv(events);
    UploadKeepsLimit(s, e);
    TrimIsNewest(s, e);
    forall d: DeviceId | d != e.device ensures PackagesOf(Step(s, e).rows, d) == PackagesOf(s.rows, d) {
      TrimIsLocal(s, e, d);
    }
  }

  /** When a package was or is being added. */
  function CreatedAt(s: State, e: Event, p: PackageId): int
    requires e.Upload? && (p in e.packages || p in s.rows)
  {
    if p in e.packages then e.now else s.rows[p].createdAt
  }

  lemma InsertedAreNew(s: State, e: Event)
    requires e.Upload? && e.packages !! s.uploaded.Keys && HandedOk(s)
    ensures forall p | p in e.packages :: p !in s.rows
    ensures PackagesOf(Inserted(s.rows, e.device, e.packages, e.now), e.device) == PackagesOf(s.rows, e.device) + e.packages
    ensures forall d: DeviceId | d != e.device ::
              PackagesOf(Inserted(s.rows, e.device, e.packages, e.now), d) == PackagesOf(s.rows, d)
  {
  }

  lemma TrimIsNewest(s: State, e: Event)
    requires e.Upload? && MayTrim(s, e) && HandedOk(s)
    ensures var all := PackagesOf(s.rows, e.device) + e.packages;
            && e.kept <= all && |e.kept| == Min(|all|, 200)
            && (forall p, q | p in e.kept && q in all - e.kept :: CreatedAt(s, e, q) <= CreatedAt(s, e, p))
  {
    InsertedAreNew(s, e);
    var rows := Inserted(s.rows, e.device, e.packages, e.now);
    var all := PackagesOf(s.rows, e.device) + e.packages;
    forall p, q | p in e.kept && q in all - e.kept ensures CreatedAt(s, e, q) <= CreatedAt(s, e, p) {
      assert rows[q].createdAt <= rows[p].createdAt;
    }
  }

  lemma TrimIsLocal(s: State, e: Event, d: DeviceId)
    requires e.Upload? && MayTrim(s, e) && HandedOk(s) && d != e.device
    ensures PackagesOf(Uploaded(s, e).rows, d) == PackagesOf(s.rows, d)
  {
    InsertedAreNew(s, e);
  }

  predicate HasNothing(s: State, d: DeviceId) {
    PackagesOf(s.rows, d) == {} && d !in s.lastResort
  }

  lemma NothingIsLeft(s: State, e: Event, d: DeviceId)
    requires HasNothing(s, d) && !(e.Upload? && e.device == d)
    ensures HasNothing(Step(s, e), d)
  {
    forall p | p in Step(s, e).rows ensures Step(s, e).rows[p].device != d {
      if p in s.rows { assert p !in PackagesOf(s.rows, d); }
    }
  }

  /** A device that is removed, with no claim holding any of its packages, has nothing left to hand out, and
   *  gets nothing but by an upload of its own. */
  lemma {:induction false} RemovedHasNothing(s: State, d: DeviceId, more: seq<Event>)
    requires forall p | p in PackagesOf(s.rows, d) :: !IsLocked(s.claims, p)
    requires forall e | e in more :: !(e.Upload? && e.device == d)
    ensures HasNothing(Run(Step(s, Revoke(d)), more), d)
  {
    if more != [] {
      RemovedHasNothing(s, d, more[..|more| - 1]);
      NothingIsLeft(Run(Step(s, Revoke(d)), more[..|more| - 1]), more[|more| - 1], d);
    }
  }

  // ---- where a gift came from ----------------------------------------------------------------------

  /** The `k`th event is the first statement of the claim `op`, and it took these packages. */
  ghost predicate PickedAt(events: seq<Event>, k: nat, op: OpId, devices: set<DeviceId>, picked: map<DeviceId, PackageId>) {
    k < |events| && events[k] == Pick(op, devices, picked) && MayPick(Run(Empty, events[..k]), op, devices, picked)
  }

  /** The `j`th event is the second statement of `op`, and `key` was the last-resort package of `d` then. */
  ghost predicate ReadAt(events: seq<Event>, j: nat, op: OpId, d: DeviceId, key: Key) {
    && j < |events| && events[j] == ReadLastResort(op)
    && d in Run(Empty, events[..j]).lastResort && Run(Empty, events[..j]).lastResort[d] == key
  }

  ghost predicate ReadAfter(events: seq<Event>, k: nat, op: OpId, d: DeviceId, key: Key) {
    exists j: nat :: k < j && ReadAt(events, j, op, d, key)
  }

  /** The claim `op` picked at `k` what it holds, and read afterwards what it falls back to. */
  ghost predicate ClaimFrom(events: seq<Event>, k: nat, op: OpId, c: Claim) {
    && PickedAt(events, k, op, c.devices, c.picked)
    && (c.fallback.Some? ==>
          forall d | d in c.fallback.value :: d in c.devices - c.picked.Keys && ReadAfter(events, k, op, d, c.fallback.value[d]))
  }

  ghost predicate GiftFrom(events: seq<Event>, k: nat, op: OpId, d: DeviceId, g: Given) {
    && k < |events| && events[k].Pick? && events[k].op == op && d in events[k].devices
    && MayPick(Run(Empty, events[..k]), op, events[k].devices, events[k].picked)
    && match g
       case OneTime(p) => d in events[k].picked && p == events[k].picked[d]
       case LastResort(key) => d !in events[k].picked && ReadAfter(events, k, op, d, key)
  }

  ghost predicate ClaimHasOrigin(events: seq<Event>, op: OpId, c: Claim) {
    exists k: nat :: ClaimFrom(events, k, op, c)
  }

  ghost predicate GiftHasOrigin(events: seq<Event>, op: OpId, d: DeviceId, g: Given) {
    exists k: nat :: GiftFrom(events, k, op, d, g)
  }

  lemma ReadAfterMore(events: seq<Event>, e: Event, k: nat, op: OpId, d: DeviceId, key: Key)
    requires ReadAfter(events, k, op, d, key)
    ensures ReadAfter(events + [e], k, op, d, key)
  {
    var j: nat :| k < j && ReadAt(events, j, op, d, key);
    assert (events + [e])[..j] == events[..j];
    assert ReadAt(events + [e], j, op, d, key);
  }

  lemma ClaimFromMore(events: seq<Event>, e: Event, k: nat, op: OpId, c: Claim)
    requires ClaimFrom(events, k, op, c)
    ensures ClaimFrom(events + [e], k, op, c)
  {
    assert (events + [e])[..k] == events[..k];
    if c.fallback.Some? {
      forall d | d in c.fallback.value ensures ReadAfter(events + [e], k, op, d, c.fallback.value[d]) {
        ReadAfterMore(events, e, k, op, d, c.fallback.value[d]);
      }
    }
  }

  lemma GiftFromMore(events: seq<Event>, e: Event, op: OpId, d: DeviceId, g: Given)
    requires GiftHasOrigin(events, op, d, g)
    ensures GiftHasOrigin(events + [e], op, d, g)
  {
    var k: nat :| GiftFrom(events, k, op, d, g);
    assert (events + [e])[..k] == events[..k];
    if g.LastResort? {
      ReadAfterMore(events, e, k, op, d, g.key);
    }
    assert GiftFrom(events + [e], k, op, d, g);
  }

  lemma PickIsOrigin(events: seq<Event>, op: OpId, devices: set<DeviceId>, picked: map<DeviceId, PackageId>)
    requires MayPick(Run(Empty, events), op, devices, picked)
    ensures ClaimHasOrigin(events + [Pick(op, devices, picked)], op, Claim(devices, picked, None))
  {
    var more := events + [Pick(op, devices, picked)];
    assert more[..|events|] == events;
    assert ClaimFrom(more, |events|, op, Claim(devices, picked, None));
  }

  lemma ReadIsOrigin(events: seq<Event>, op: OpId)
    requires op in Run(Empty, events).claims && Run(Empty, events).claims[op].fallback.None?
    requires ClaimHasOrigin(events, op, Run(Empty, events).claims[op])
    ensures ClaimHasOrigin(events + [ReadLastResort(op)], op, Step(Run(Empty, events), ReadLastResort(op)).claims[op])
  {
    var s := Run(Empty, events);
    var more := events + [ReadLastResort(op)];
    var c := Step(s, ReadLastResort(op)).claims[op];
    var k: nat :| ClaimFrom(events, k, op, s.claims[op]);
    ClaimFromMore(events, ReadLastResort(op), k, op, s.claims[op]);
    assert more[..|events|] == events;
    forall d | d in c.fallback.value ensures ReadAfter(more, k, op, d, c.fallback.value[d]) {
      assert ReadAt(more, |events|, op, d, c.fallback.value[d]);
    }
    assert ClaimFrom(more, k, op, c);
  }

  lemma CommitIsOrigin(events: seq<Event>, op: OpId, c: Claim, d: DeviceId)
    requires ClaimHasOrigin(events, op, c) && d in Gifts(c)
    ensures GiftHasOrigin(events, op, d, Gifts(c)[d])
  {
    var k: nat :| ClaimFrom(events, k, op, c);
    assert GiftFrom(events, k, op, d, Gifts(c)[d]);
  }

  lemma ClaimChanged(s: State, e: Event, op: OpId)
    requires op in Step(s, e).claims
    ensures var c := Step(s, e).claims[op];
            || (op in s.claims && c == s.claims[op])
            || (e.Pick? && e.op == op && MayPick(s, op, e.devices, e.picked) && c == Claim(e.devices, e.picked, None))
            || (e == ReadLastResort(op) && op in s.claims && s.claims[op].fallback.None?)
  {
  }

  lemma ClaimAfterStep(events: seq<Event>, e: Event, op: OpId)
    requires op in Step(Run(Empty, events), e).claims
    requires forall o | o in Run(Empty, events).claims :: ClaimHasOrigin(events, o, Run(Empty, events).claims[o])
    ensures ClaimHasOrigin(events + [e], op, Step(Run(Empty, events), e).claims[op])
  {
    var s, c := Run(Empty, events), Step(Run(Empty, events), e).claims[op];
    ClaimChanged(s, e, op);
    if op in s.claims && c == s.claims[op] {
      var k: nat :| ClaimFrom(events, k, op, c);
      ClaimFromMore(events, e, k, op, c);
    } else if e.Pick? {
      PickIsOrigin(events, op, e.devices, e.picked);
    } else {
      ReadIsOrigin(events, op);
    }
  }

  lemma {:induction false} ClaimsHaveOrigin(events: seq<Event>)
    ensures forall op | op in Run(Empty, events).claims :: ClaimHasOrigin(events, op, Run(Empty, events).claims[op])
  {
    if events != [] {
      var init, e := events[..|events| - 1], events[|events| - 1];
      ClaimsHaveOrigin(init);
      assert init + [e] == events;
      forall op | op in Run(Empty, events).claims ensures ClaimHasOrigin(events, op, Run(Empty, events).claims[op]) {
        ClaimAfterStep(init, e, op);
      }
    }
  }

  lemma HandedAfterStep(s: State, e: Event, op: OpId, d: DeviceId)
    requires (op, d) in Step(s, e).handed
    ensures var g := Step(s, e).handed[(op, d)];
            || ((op, d) in s.handed && s.handed[(op, d)] == g)
            || (e == Commit(op) && op in s.claims && d in Gifts(s.claims[op]) && Gifts(s.claims[op])[d] == g)
  {
  }

  lemma GiftAfterStep(events: seq<Event>, e: Event, op: OpId, d: DeviceId)
    requires (op, d) in Step(Run(Empty, events), e).handed
    requires (op, d) in Run(Empty, events).handed ==> GiftHasOrigin(events, op, d, Run(Empty, events).handed[(op, d)])
    ensures GiftHasOrigin(events + [e], op, d, Step(Run(Empty, events), e).handed[(op, d)])
  {
    var s, g := Run(Empty, events), Step(Run(Empty, events), e).handed[(op, d)];
    HandedAfterStep(s, e, op, d);
    if !((op, d) in s.handed && s.handed[(op, d)] == g) {
      ClaimsHaveOrigin(events);
      CommitIsOrigin(events, op, s.claims[op], d);
    }
    GiftFromMore(events, e, op, d, g);
  }

  lemma {:induction false} GiftsHaveOrigin(events: seq<Event>, op: OpId, d: DeviceId)
    requires (op, d) in Run(Empty, events).handed
    ensures GiftHasOrigin(events, op, d, Run(Empty, events).handed[(op, d)])
  {
    if events != [] {
      var init := events[..|events| - 1];
      assert init + [events[|events| - 1]] == events;
      if (op, d) in Run(Empty, init).handed {
        GiftsHaveOrigin(init, op, d);
      }
      GiftAfterStep(init, events[|events| - 1], op, d);
    }
  }

  /** What a pick leaves out has nothing free, and what it takes is the oldest that is. */
  lemma PickTakesOldestFree(s: State, op: OpId, devices: set<DeviceId>, picked: map<DeviceId, PackageId>, d: DeviceId)
    requires MayPick(s, op, devices, picked) && d in devices
    ensures d !in picked ==> forall p | p in PackagesOf(s.rows, d) :: IsLocked(s.claims, p)
    ensures d in picked ==>
              && picked[d] in PackagesOf(s.rows, d) && !IsLocked(s.claims, picked[d])
              && (forall p | p in PackagesOf(s.rows, d) && !IsLocked(s.claims, p) ::
                    s.rows[picked[d]].createdAt <= s.rows[p].createdAt)
  {
    if d in picked {
      assert IsOldest(s.rows, FreeOf(s, d), picked[d]);
    } else {
      assert FreeOf(s, d) == {};
      forall p | p in PackagesOf(s.rows, d) ensures IsLocked(s.claims, p) {
        assert p !in FreeOf(s, d);
      }
    }
  }

  /** Whatever a claim handed out for a device, it decided at one moment `k` of the run. It was the device's
   *  last-resort package only if every one-time package the device then had was in the hands of another
   *  claim, and it is the one the device had when the claim looked again; otherwise it was the oldest
   *  one-time package that no other claim then held. */
  lemma LastResortOnlyWhenDry(events: seq<Event>, op: OpId, d: DeviceId) returns (k: nat)
    requires (op, d) in Run(Empty, events).handed
    ensures k < |events| && events[k].Pick? && events[k].op == op && d in events[k].devices
    ensures var s := Run(Empty, events[..k]);
            match Run(Empty, events).handed[(op, d)]
            case OneTime(p) =>
              && p in PackagesOf(s.rows, d) && !IsLocked(s.claims, p)
              && (forall q | q in PackagesOf(s.rows, d) && !IsLocked(s.claims, q) :: s.rows[p].createdAt <= s.rows[q].createdAt)
            case LastResort(key) =>
              && (forall p | p in PackagesOf(s.rows, d) :: IsLocked(s.claims, p))
              && (exists j: nat :: k < j && ReadAt(events, j, op, d, key))
  {
    GiftsHaveOrigin(events, op, d);
    k :| GiftFrom(events, k, op, d, Run(Empty, events).handed[(op, d)]);
    PickTakesOldestFree(Run(Empty, events[..k]), op, events[k].devices, events[k].picked, d);
  }

  /** An event that sets or removes a device's last-resort package. */
  predicate ChangesLastResort(e: Event, d: DeviceId) {
    (e.Upload? && e.device == d && e.lastResort.Some?) || (e.Revoke? && e.device == d)
  }

  lemma LastResortStep(s: State, e: Event, d: DeviceId)
    requires !ChangesLastResort(e, d)
    ensures d in Step(s, e).lastResort <==> d in s.lastResort
    ensures d in s.lastResort ==> Step(s, e).lastResort[d] == s.lastResort[d]
  {
  }

  /** Handing a last-resort package out does not use it up: only an upload replaces it, and only removing
   *  the device takes it away. */
  lemma {:induction false} LastResortStays(s: State, more: seq<Event>, d: DeviceId)
    requires forall e | e in more :: !ChangesLastResort(e, d)
    ensures d in Run(s, more).lastResort <==> d in s.lastResort
    ensures d in s.lastResort ==> Run(s, more).lastResort[d] == s.lastResort[d]
  {
    if more != [] {
      LastResortStays(s, more[..|more| - 1], d);
      LastResortStep(Run(s, more[..|more| - 1]), more[|more| - 1], d);
    }
  }

  // ---- the directory itself ------------------------------------------------------------------------

  /** The table of key packages. */
  class KeyDirectory {
    var rows: Rows
    var lastResort: map<DeviceId, Key>
    var claims: map<OpId, Claim>
    ghost var uploaded: map<PackageId, DeviceId>
    ghost var finished: set<OpId>
    ghost var handed: map<(OpId, DeviceId), Given>

    ghost function View(): State
      reads this
    {
      State(rows, lastResort, claims, uploaded, finished, handed)
    }

    constructor ()
      ensures View() == Empty
    {
      rows, lastResort, claims, uploaded, finished, handed := map[], map[], map[], map[], {}, map[];
    }

    /** `addKeyPackages`, under ids that are new. The trim waits for a claim that holds a row it would
     *  delete; until then nothing has happened. The count is what the device is told it has. */
    method AddKeyPackages(d: DeviceId, packages: set<PackageId>, key: Option<Key>, now: int)
      returns (waits: bool, count: nat, ghost kept: set<PackageId>)
      requires packages !! uploaded.Keys && HandedOk(View()) && LocksOk(View())
      modifies this
      ensures waits ==> View() == old(View()) && exists p :: p in PackagesOf(rows, d) && IsLocked(claims, p)
      ensures !waits ==> MayTrim(old(View()), Upload(d, packages, key, now, kept))
                         && View() == Step(old(View()), Upload(d, packages, key, now, kept))
                         && count == |PackagesOf(rows, d)|
      ensures !waits ==> lastResort == if key.Some? then old(lastResort)[d := key.value] else old(lastResort)
      ensures !waits ==> PackagesOf(rows, d) == kept && claims == old(claims)
      ensures !waits ==> forall p | p in rows :: rows[p] == if p in packages then Package(d, now) else if p in old(rows) then old(rows)[p] else rows[p]
      ensures !waits ==> forall p | p in old(rows) && old(rows)[p].device != d :: p in rows
    {
      var inserted := Inserted(rows, d, packages, now);
      var newest := NewestOf(inserted, PackagesOf(inserted, d));
      var dropped := PackagesOf(inserted, d) - newest;
      kept, count := newest, 0;
      if p :| p in dropped && IsLocked(claims, p) {
        LockedIsOld(View(), p);
        return true, 0, kept;
      }
      rows := inserted - dropped;
      if key.Some? { lastResort := lastResort[d := key.value]; }
      uploaded := uploaded + map p | p in packages :: d;
      return false, |PackagesOf(rows, d)|, kept;
    }

    /** `order by created_at desc limit 200`. */
    static method NewestOf(rows: Rows, all: set<PackageId>) returns (kept: set<PackageId>)
      requires all <= rows.Keys
      ensures IsNewest(rows, all, kept)
    {
      kept := all;
      while |kept| > MAX_PACKAGES
        invariant kept <= all && |kept| >= Min(|all|, MAX_PACKAGES)
        invariant forall p, q | p in kept && q in all - kept :: rows[q].createdAt <= rows[p].createdAt
        decreases |kept|
      {
        var p := OldestOf(rows, kept);
        kept := kept - {p};
      }
      SmallerSet(kept, all);
    }

    /** `order by created_at asc limit 1`. */
    static method OldestOf(rows: Rows, ps: set<PackageId>) returns (oldest: PackageId)
      requires ps != {} && ps <= rows.Keys
      ensures IsOldest(rows, ps, oldest)
    {
      var rest := ps;
      oldest :| oldest in rest;
      while rest != {}
        invariant rest <= ps && oldest in ps
        invariant forall q | q in ps - rest :: rows[oldest].createdAt <= rows[q].createdAt
        decreases |rest|
      {
        var q :| q in rest;
        rest := rest - {q};
        if rows[q].createdAt < rows[oldest].createdAt { oldest := q; }
      }
    }

    /** The first statement of `claimKeyPackages`: one free package of each device that has any. */
    method TakeOneTime(op: OpId, devices: set<DeviceId>)
      requires op !in claims && op !in finished
      modifies this`claims
      ensures op in claims && MayPick(old(View()), op, devices, claims[op].picked)
      ensures View() == Step(old(View()), Pick(op, devices, claims[op].picked))
      ensures claims == old(claims)[op := Claim(devices, claims[op].picked, None)]
      ensures forall d :: d in claims[op].picked <==> d in devices && exists p :: p in rows && rows[p].device == d && !IsLocked(old(claims), p)
      ensures forall d | d in claims[op].picked ::
                var p := claims[op].picked[d];
                && p in rows && rows[p].device == d && !IsLocked(old(claims), p)
                && forall q | q in rows && rows[q].device == d && !IsLocked(old(claims), q) :: rows[p].createdAt <= rows[q].createdAt
    {
      var picked: map<DeviceId, PackageId> := map[];
      var rest := devices;
      while rest != {}
        invariant rest <= devices && View() == old(View())
        invariant picked.Keys == set d | d in devices - rest && FreeIn(rows, claims, d) != {}
        invariant forall d | d in picked :: IsOldest(rows, FreeIn(rows, claims, d), picked[d])
        decreases |rest|
      {
        var d :| d in rest;
        rest := rest - {d};
        var free := FreeIn(rows, claims, d);
        if free != {} {
          var p := OldestOf(rows, free);
          picked := picked[d := p];
        }
      }
      assert devices - rest == devices;
      assert picked.Keys == set d | d in devices && FreeOf(old(View()), d) != {};
      FreeIff(View());
      claims := claims[op := Claim(devices, picked, None)];
    }

    /** Its second: the last-resort packages of the others. */
    method ReadLastResorts(op: OpId)
      requires op in claims && claims[op].fallback.None?
      modifies this`claims
      ensures View() == Step(old(View()), ReadLastResort(op))
      ensures rows == old(rows) && op in claims && claims[op].picked == old(claims)[op].picked && claims[op].fallback.Some?
      ensures forall d | d in claims[op].fallback.value ::
                d in claims[op].devices - claims[op].picked.Keys && d in lastResort && claims[op].fallback.value[d] == lastResort[d]
      ensures claims[op].devices == old(claims)[op].devices && claims - {op} == old(claims) - {op}
      ensures forall d | d in claims[op].devices - claims[op].picked.Keys && d in lastResort :: d in claims[op].fallback.value
    {
      var c := claims[op];
      var rest := c.devices - c.picked.Keys;
      claims := claims[op := c.(fallback := Some(map d | d in rest && d in lastResort :: lastResort[d]))];
    }

    /** The claim commits, and its caller gets one package per device: a one-time one if there was one. */
    method CommitClaim(op: OpId) returns (out: map<DeviceId, Given>)
      requires op in claims && claims[op].fallback.Some?
      modifies this
      ensures View() == Committed(old(View()), op) == Step(old(View()), Commit(op))
      ensures out == Gifts(old(claims)[op])
      ensures out.Keys == old(claims)[op].picked.Keys + old(claims)[op].fallback.value.Keys
      ensures forall d | d in out :: out[d] == if d in old(claims)[op].picked then OneTime(old(claims)[op].picked[d])
                                         else LastResort(old(claims)[op].fallback.value[d])
      ensures rows.Keys == old(rows.Keys) - old(claims)[op].picked.Values && lastResort == old(lastResort)
      ensures rows == old(rows) - old(claims)[op].picked.Values && claims == old(claims) - {op}
    {
      var c := claims[op];
      out := Merge(c);
      rows := rows - c.picked.Values;
      claims := claims - {op};
      finished := finished + {op};
      handed := handed + Addressed(op, out);
    }

    /** The two results of `claimKeyPackages` in one map; the loop over the fallback rows only adds devices. */
    static method Merge(c: Claim) returns (out: map<DeviceId, Given>)
      requires c.fallback.Some?
      ensures out == Gifts(c)
    {
      var fallback := c.fallback.value;
      out := (map d | d in fallback :: LastResort(fallback[d])) + (map d | d in c.picked :: OneTime(c.picked[d]));
      GiftsAreMerged(c);
    }

    method AbortClaim(op: OpId)
      requires op in claims
      modifies this
      ensures View() == Step(old(View()), Abort(op))
      ensures rows == old(rows) && lastResort == old(lastResort) && handed == old(handed)
      ensures LocksOk(old(View())) ==> forall d: DeviceId, p: PackageId | Holds(old(View()), op, d, p) :: !IsLocked(claims, p)
      ensures claims == old(claims) - {op}
    {
      if LocksOk(View()) { HeldAreFreed(View(), op); }
      claims := claims - {op};
      finished := finished + {op};
    }
  }

  lemma GiftsAreMerged(c: Claim)
    requires c.fallback.Some?
    ensures Gifts(c) == (map d | d in c.fallback.value :: LastResort(c.fallback.value[d]))
                        + (map d | d in c.picked :: OneTime(c.picked[d]))
  {
  }

  lemma FreeIff(s: State)
    ensures forall d :: FreeOf(s, d) != {} <==> exists p :: p in s.rows && s.rows[p].device == d && !IsLocked(s.claims, p)
  {
    forall d ensures FreeOf(s, d) != {} <==> exists p :: p in s.rows && s.rows[p].device == d && !IsLocked(s.claims, p) {
      assert forall p :: p in FreeOf(s, d) <==> p in s.rows && s.rows[p].device == d && !IsLocked(s.claims, p);
    }
  }

  lemma HeldAreFreed(s: State, op: OpId)
    requires LocksOk(s)
    ensures forall d: DeviceId, p: PackageId | Holds(s, op, d, p) :: !IsLocked(s.claims - {op}, p)
  {
    forall d: DeviceId, p: PackageId | Holds(s, op, d, p) ensures !IsLocked(s.claims - {op}, p) {
      forall o, c | o in s.claims - {op} && c in s.claims[o].picked ensures s.claims[o].picked[c] != p {
        assert Holds(s, o, c, s.claims[o].picked[c]);
      }
    }
  }

  lemma LockedIsOld(s: State, p: PackageId)
    requires LocksOk(s) && IsLocked(s.claims, p)
    ensures p in s.rows
  {
    var op, d :| op in s.claims && d in s.claims[op].picked && s.claims[op].picked[d] == p;
    assert Holds(s, op, d, p);
  }
}

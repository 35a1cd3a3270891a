/**
 * The delay after failed sign-ins (apps/api/src/db/users.ts, the login gate of
 * apps/api/src/auth/auth.service.ts, and the limits in packages/shared/src/domain.ts).
 *
 * A password check reads the account's row, is refused while the row's delay runs, and otherwise ends
 * in one UPDATE: of the failure count, or back to zero. Times are in milliseconds.
 */
module LoginBackoff {
  import opened Common

  const THRESHOLD := 5
  const BASE_MS := 30_000
  const MAX_MS := 300_000
  const WINDOW_MS := 3_600_000
  const HOUR_MS := 3_600_000

  /** The columns of `users` that the delay lives in. */
  datatype Row = Row(attempts: nat, lastFailed: Option<int>, lockedUntil: Option<int>)

  const Clean := Row(0, None, None)

  function Pow2(n: nat): (p: nat)
    ensures p >= 1
  {
    if n == 0 then 1 else 2 * Pow2(n - 1)
  }

  /** How long the `n`th failure in a row holds up the next check. */
  function Delay(n: nat): (d: nat)
    ensures d <= MAX_MS
  {
    if n < THRESHOLD then 0 else Min(BASE_MS * Pow2(n - THRESHOLD), MAX_MS)
  }

  /** The failure is too long after the last one to count with it. */
  predicate StartsOver(row: Row, now: int) {
    row.lastFailed.None? || row.lastFailed.value < now - WINDOW_MS
  }

  /** `recordFailedLogin`. */
  function RecordFailure(row: Row, now: int): Row {
    var attempts := if StartsOver(row, now) then 1 else row.attempts + 1;
    Row(attempts, Some(now), if attempts >= THRESHOLD then Some(now + Delay(attempts)) else None)
  }

  /** `refuseWhileDelayed` lets the check through. */
  predicate Admitted(row: Row, now: int) {
    row.lockedUntil.None? || row.lockedUntil.value <= now
  }

  /** The seconds a refused caller is told to wait. */
  function RetryAfterSec(row: Row, now: int): int
    requires !Admitted(row, now)
  {
    (row.lockedUntil.value - now + 999) / 1000
  }

  /** A failed check: when it passed the gate, and when its failure was recorded. */
  datatype Check = Check(start: int, recorded: int)

  /** The row after these failed checks. */
  function After(row: Row, checks: seq<Check>): Row {
    if checks == [] then row
    else RecordFailure(After(row, checks[..|checks| - 1]), checks[|checks| - 1].recorded)
  }

  /** Each check passes the gate after the one before it was recorded. */
  predicate InSeries(row: Row, checks: seq<Check>) {
    checks != [] ==>
      var init, last := checks[..|checks| - 1], checks[|checks| - 1];
      && InSeries(row, init)
      && Admitted(After(row, init), last.start)
      && last.start <= last.recorded
      && (init != [] ==> init[|init| - 1].recorded <= last.start)
  }

  // ---- runs ----------------------------------------------------------------------------------------

  /** A password check, with its outcome, or a sign-in by an emailed code, which is never delayed. */
  datatype Event = Login(start: int, recorded: int, correct: bool) | CodeLogin(at: int)

  /** `streak` is history: the failed checks since the row was last clean, from `base` on. */
  datatype State = State(row: Row, clock: int, base: Row, streak: seq<Check>)

  /** One event after the other; one that would begin before its predecessor ended does not happen. */
  function Step(s: State, e: Event): State {
    match e
    case Login(start, recorded, correct) =>
      if start < s.clock || recorded < start then s
      else if !Admitted(s.row, start) then s.(clock := start)
      else if correct then State(Clean, recorded, Clean, [])
      else State(RecordFailure(s.row, recorded), recorded, s.base, s.streak + [Check(start, recorded)])
    case CodeLogin(at) => if at < s.clock then s else State(Clean, at, Clean, [])
  }

  function Run(s: State, events: seq<Event>): State {
    if events == [] then s else Step(Run(s, events[..|events| - 1]), events[|events| - 1])
  }

  /** An account found in any state, at any time. */
  function Start(row: Row, clock: int): State {
    State(row, clock, row, [])
  }

  ghost predicate Inv(s: State) {
    && InSeries(s.base, s.streak)
    && s.row == After(s.base, s.streak)
    && (s.streak != [] ==> s.streak[|s.streak| - 1].recorded <= s.clock)
  }

  lemma StepKeepsInv(s: State, e: Event)
    requires Inv(s)
    ensures Inv(Step(s, e))
  {
    var t := Step(s, e);
    if |t.streak| == |s.streak| + 1 {
      assert t.streak[..|s.streak|] == s.streak;
    }
  }

  lemma {:induction false} RunKeepsInv(row: Row, clock: int, events: seq<Event>)
    ensures Inv(Run(Start(row, clock), events))
  {
    if events != [] {
      RunKeepsInv(row, clock, events[..|events| - 1]);
      StepKeepsInv(Run(Start(row, clock), events[..|events| - 1]), events[|events| - 1]);
    }
  }

  // ---- series --------------------------------------------------------------------------------------

  lemma {:induction false} PrefixInSeries(row: Row, checks: seq<Check>, n: nat)
    requires InSeries(row, checks) && n <= |checks|
    ensures InSeries(row, checks[..n])
  {
    if n < |checks| {
      PrefixInSeries(row, checks[..|checks| - 1], n);
      assert checks[..|checks| - 1][..n] == checks[..n];
    } else {
      assert checks[..n] == checks;
    }
  }

  /** One check and the next: the delay of the first has passed. */
  lemma NextCheck(row: Row, checks: seq<Check>, i: nat)
    requires InSeries(row, checks) && i + 1 < |checks|
    ensures var r := After(row, checks[..i + 1]);
            && checks[i].start <= checks[i].recorded
            && checks[i].recorded + Delay(r.attempts) <= checks[i + 1].start
            && r == RecordFailure(After(row, checks[..i]), checks[i].recorded)
            && r.attempts >= 1 && r.lastFailed == Some(checks[i].recorded)
  {
    PrefixInSeries(row, checks, i + 2);
    PrefixInSeries(row, checks, i + 1);
    assert checks[..i + 2][..i + 1] == checks[..i + 1];
    assert checks[..i + 1][..i] == checks[..i];
  }

  /** The failure that starts over comes more than a window after the one before. */
  predicate Continues(row: Row, checks: seq<Check>, i: nat)
    requires 0 < i < |checks|
  {
    After(row, checks[..i + 1]).attempts == After(row, checks[..i]).attempts + 1
  }

  lemma StartingOverTakesAnHour(row: Row, checks: seq<Check>, i: nat)
    requires InSeries(row, checks) && 0 < i && i + 1 < |checks|
    ensures Continues(row, checks, i) || checks[i + 1].start - checks[i - 1].start > HOUR_MS
  {
    NextCheck(row, checks, i);
    NextCheck(row, checks, i - 1);
  }

  lemma {:induction false} StartsAscend(row: Row, checks: seq<Check>, i: nat, j: nat)
    requires InSeries(row, checks) && i <= j < |checks|
    ensures checks[i].start <= checks[j].start
  {
    if i < j {
      StartsAscend(row, checks, i, j - 1);
      NextCheck(row, checks, j - 1);
    }
  }

  /** The time `k` delays take, of the `n`th failure and those after it. */
  function TotalDelay(n: nat, k: nat): nat {
    if k == 0 then 0 else TotalDelay(n, k - 1) + Delay(n + k - 1)
  }

  /** Within an hour of check `i`, the `k`th after it has waited for `k` delays and counted `k` failures. */
  predicate AddedUp(row: Row, checks: seq<Check>, i: nat, k: nat, n: nat)
    requires i + k < |checks|
  {
    checks[i + k].start - checks[i].start > HOUR_MS || (
      && checks[i + k].start - checks[i].start >= TotalDelay(n, k)
      && (k > 0 ==> After(row, checks[..i + k]).attempts >= n + k - 1))
  }

  /** The failure before check `i + k` counted on from the one before it, unless an hour has passed. */
  lemma CountsOn(row: Row, checks: seq<Check>, i: nat, k: nat, n: nat)
    requires InSeries(row, checks) && 0 < k && i + k < |checks| && n <= After(row, checks[..i + 1]).attempts
    requires AddedUp(row, checks, i, k - 1, n)
    ensures checks[i + k].start - checks[i].start > HOUR_MS || After(row, checks[..i + k]).attempts >= n + k - 1
  {
    StartsAscend(row, checks, i + k - 1, i + k);
    if k > 1 {
      StartsAscend(row, checks, i, i + k - 2);
      StartingOverTakesAnHour(row, checks, i + k - 1);
    }
  }

  /** Within an hour nothing starts over, so the delays add up. */
  lemma {:induction false} DelaysAddUp(row: Row, checks: seq<Check>, i: nat, k: nat, n: nat)
    requires InSeries(row, checks) && i + k < |checks| && n <= After(row, checks[..i + 1]).attempts
    ensures AddedUp(row, checks, i, k, n)
  {
    if k > 0 {
      DelaysAddUp(row, checks, i, k - 1, n);
      CountsOn(row, checks, i, k, n);
      NextCheck(row, checks, i + k - 1);
      DelayGrows(n + k - 1, After(row, checks[..i + k]).attempts);
    }
  }

  lemma {:induction false} DelayGrows(m: nat, n: nat)
    ensures m <= n ==> Delay(m) <= Delay(n)
  {
    if m < n {
      DelayGrows(m, n - 1);
      if n > THRESHOLD {
        assert Pow2(n - THRESHOLD) == 2 * Pow2(n - 1 - THRESHOLD);
      }
    }
  }

  /** The delays by name: none up to the fourth failure, then 30 s, 1 min, 2 min, 4 min, and 5 min each. */
  lemma DelayTable(n: nat)
    ensures Delay(n) == (if n < 5 then 0
                         else if n == 5 then 30_000
                         else if n == 6 then 60_000
                         else if n == 7 then 120_000
                         else if n == 8 then 240_000
                         else MAX_MS)
  {
    assert Pow2(0) == 1 && Pow2(1) == 2 && Pow2(2) == 4 && Pow2(3) == 8;
    if n >= 9 {
      PowGrows(4, n - 5);
      assert Pow2(4) == 2 * Pow2(3);
    }
  }

  lemma {:induction false} PowGrows(m: nat, n: nat)
    requires m <= n
    ensures Pow2(m) <= Pow2(n)
  {
    if m < n {
      PowGrows(m, n - 1);
    }
  }

  /** From the ninth failure on every delay is the longest. */
  lemma {:induction false} LongDelays(n: nat, k: nat)
    requires n >= 9
    ensures TotalDelay(n, k) == k * MAX_MS
  {
    if k > 0 {
      LongDelays(n, k - 1);
      DelayTable(n + k - 1);
    }
  }

  lemma {:induction false} TotalSplits(n: nat, j: nat, k: nat)
    ensures TotalDelay(n, j + k) == TotalDelay(n, j) + TotalDelay(n + j, k)
  {
    if k > 0 {
      TotalSplits(n, j, k - 1);
      assert TotalDelay(n, j + k) == TotalDelay(n, j + (k - 1)) + Delay(n + j + k - 1);
    }
  }

  /** The first eight failures of a clean row cost 450 s between them, each further one 300 s. */
  lemma DelaysOfACleanRow(k: nat)
    ensures TotalDelay(1, 8 + k) == 450_000 + k * MAX_MS
  {
    TotalSplits(1, 8, k);
    LongDelays(9, k);
    TotalSplits(1, 4, 4);
    NoEarlyDelay(4);
    assert TotalDelay(5, 1) == Delay(5) && TotalDelay(5, 2) == Delay(5) + Delay(6);
    assert TotalDelay(5, 4) == TotalDelay(5, 2) + Delay(7) + Delay(8);
    DelayTable(5); DelayTable(6); DelayTable(7); DelayTable(8);
  }

  lemma {:induction false} NoEarlyDelay(k: nat)
    requires k <= 4
    ensures TotalDelay(1, k) == 0
  {
    if k > 0 {
      NoEarlyDelay(k - 1);
    }
  }

  // ---- the bounds ----------------------------------------------------------------------------------

  /** Twenty failed checks in a row take more than an hour, whatever the row was before them. */
  lemma TwentyTakeLongerThanAnHour(row: Row, checks: seq<Check>, i: nat)
    requires InSeries(row, checks) && i + 19 < |checks|
    ensures checks[i + 19].start - checks[i].start > HOUR_MS
  {
    NextCheck(row, checks, i);
    DelaysAddUp(row, checks, i, 19, 1);
    DelaysOfACleanRow(11);
  }

  /** Once check `i` has failed, nine failures or more are on record. */
  predicate NineStand(row: Row, checks: seq<Check>, i: nat)
    requires i < |checks|
  {
    After(row, checks[..i + 1]).attempts >= 9
  }

  /** With nine failures standing, thirteen take at least an hour. */
  lemma ThirteenTakeAnHour(row: Row, checks: seq<Check>, i: nat)
    requires InSeries(row, checks) && i + 12 < |checks| && NineStand(row, checks, i)
    ensures checks[i + 12].start - checks[i].start >= HOUR_MS
  {
    DelaysAddUp(row, checks, i, 12, 9);
    LongDelays(9, 12);
  }

  /** The checks that begin between `from` and `to`, both included. */
  function Within(checks: seq<Check>, from: int, to: int): set<nat> {
    set i | 0 <= i < |checks| && from <= checks[i].start <= to
  }

  predicate IsLeast(low: nat, s: set<nat>) {
    low in s && forall i | i in s :: low <= i
  }

  /** Indices that lie less than `n` apart are no more than `n`. */
  lemma {:induction false} FewIndices(s: set<nat>, low: nat, n: nat)
    requires forall i | i in s :: low <= i < low + n
    ensures |s| <= n
  {
    if n == 0 {
      assert s == {};
    } else {
      FewIndices(s - {low + n - 1}, low, n - 1);
    }
  }

  lemma CloseTogether(s: set<nat>, n: nat)
    requires forall i, j | i in s && j in s && i <= j :: j - i < n
    ensures |s| <= n
  {
    if s != {} {
      var low := LeastIn(s);
      FewIndices(s, low, n);
    }
  }

  lemma {:induction false} LeastIn(s: set<nat>) returns (low: nat)
    requires s != {}
    ensures IsLeast(low, s)
  {
    var x :| x in s;
    if s == {x} {
      return x;
    } else {
      var y := LeastIn(s - {x});
      low := if x < y then x else y;
      assert forall i | i in s :: i == x || i in s - {x};
    }
  }

  /** At most 19 wrong passwords are checked in any closed hour without a sign-in in between, for an
   *  account in any state, over any run of checks in series; the window may start over within it. */
  lemma NineteenAnHour(row: Row, clock: int, events: seq<Event>, from: int)
    ensures |Within(Run(Start(row, clock), events).streak, from, from + HOUR_MS)| <= 19
  {
    var s := Run(Start(row, clock), events);
    RunKeepsInv(row, clock, events);
    var w := Within(s.streak, from, from + HOUR_MS);
    forall i, j | i in w && j in w && i <= j ensures j - i < 19 {
      if i + 19 <= j {
        TwentyTakeLongerThanAnHour(s.base, s.streak, i);
        StartsAscend(s.base, s.streak, i + 19, j);
      }
    }
    CloseTogether(w, 19);
  }

  /** At most 12 in any half-open hour whose first check leaves nine failures or more standing. */
  lemma TwelveAnHour(row: Row, clock: int, events: seq<Event>, from: int, first: nat)
    requires var s := Run(Start(row, clock), events);
             IsLeast(first, Within(s.streak, from, from + HOUR_MS - 1)) && NineStand(s.base, s.streak, first)
    ensures |Within(Run(Start(row, clock), events).streak, from, from + HOUR_MS - 1)| <= 12
  {
    var s := Run(Start(row, clock), events);
    RunKeepsInv(row, clock, events);
    var w := Within(s.streak, from, from + HOUR_MS - 1);
    forall i | i in w ensures first <= i < first + 12 {
      if first + 12 <= i {
        ThirteenTakeAnHour(s.base, s.streak, first);
        StartsAscend(s.base, s.streak, first + 12, i);
      }
    }
    FewIndices(w, first, 12);
  }

  // ---- the bound is reached ------------------------------------------------------------------------

  /** Checks as fast as the gate allows, from a clean row at time zero. */
  function Fastest(k: nat): (checks: seq<Check>)
    ensures |checks| == k
    ensures forall i | 0 <= i < k :: checks[i] == Check(TotalDelay(1, i), TotalDelay(1, i))
  {
    if k == 0 then [] else Fastest(k - 1) + [Check(TotalDelay(1, k - 1), TotalDelay(1, k - 1))]
  }

  function FastestRow(k: nat): Row
    requires k > 0
  {
    Row(k, Some(TotalDelay(1, k - 1)), if k >= THRESHOLD then Some(TotalDelay(1, k)) else None)
  }

  /** One check more, the moment the delay of the last one has passed. */
  lemma NextFastest(k: nat)
    requires k > 1
    ensures var now := TotalDelay(1, k - 1);
            && Admitted(FastestRow(k - 1), now)
            && RecordFailure(FastestRow(k - 1), now) == FastestRow(k)
            && TotalDelay(1, k - 2) <= now
  {
    assert TotalDelay(1, k - 1) == TotalDelay(1, k - 2) + Delay(k - 1);
    assert TotalDelay(1, k) == TotalDelay(1, k - 1) + Delay(k);
  }

  lemma {:induction false} FastestIsInSeries(k: nat)
    ensures InSeries(Clean, Fastest(k))
    ensures k > 0 ==> After(Clean, Fastest(k)) == FastestRow(k)
  {
    if k > 0 {
      FastestIsInSeries(k - 1);
      assert Fastest(k)[..k - 1] == Fastest(k - 1);
      if k > 1 { NextFastest(k); } else { NoEarlyDelay(1); }
    }
  }

  /** Nineteen checks do fit into an hour. */
  lemma NineteenAreReached()
    ensures InSeries(Clean, Fastest(19))
    ensures |Within(Fastest(19), 0, HOUR_MS)| == 19
  {
    FastestIsInSeries(19);
    DelaysOfACleanRow(10);
    AllWithin(19);
  }

  lemma AllWithin(n: nat)
    requires n > 0 && TotalDelay(1, n - 1) <= HOUR_MS
    ensures Within(Fastest(n), 0, HOUR_MS) == Below(n)
  {
    var checks := Fastest(n);
    forall i: nat | i < n ensures 0 <= checks[i].start <= HOUR_MS {
      TotalSplits(1, i, n - 1 - i);
    }
  }

  function Below(n: nat): (s: set<nat>)
    ensures forall i :: i in s <==> 0 <= i < n
    ensures |s| == n
  {
    if n == 0 then {} else Below(n - 1) + {n - 1}
  }

  // ---- several checks at once ----------------------------------------------------------------------

  /** The row after failures recorded at these times. */
  function AfterFailures(row: Row, times: seq<int>): Row {
    if times == [] then row else RecordFailure(AfterFailures(row, times[..|times| - 1]), times[|times| - 1])
  }

  /** Wrong passwords only, checked at the same time: `starts` are the checks that passed the gate, of
   *  which the failures have been recorded of as many as there are `failures`. */
  datatype Crowd = Crowd(row: Row, clock: int, base: Row, starts: seq<int>, failures: seq<int>)

  datatype Moment = Begin(at: int) | Fail(at: int)

  /** No more than `m` checks are under way at the same time. */
  function CrowdStep(m: nat, c: Crowd, e: Moment): Crowd {
    if e.at < c.clock then c
    else
      match e
      case Begin(at) =>
        if |c.starts| >= |c.failures| + m then c
        else if !Admitted(c.row, at) then c.(clock := at)
        else c.(clock := at, starts := c.starts + [at])
      case Fail(at) =>
        if |c.failures| == |c.starts| then c
        else c.(clock := at, row := RecordFailure(c.row, at), failures := c.failures + [at])
  }

  function CrowdRun(m: nat, row: Row, clock: int, events: seq<Moment>): Crowd {
    if events == [] then Crowd(row, clock, row, [], [])
    else CrowdStep(m, CrowdRun(m, row, clock, events[..|events| - 1]), events[|events| - 1])
  }

  predicate Ascending(times: seq<int>, last: int) {
    && (forall i, j | 0 <= i <= j < |times| :: times[i] <= times[j])
    && (forall i | 0 <= i < |times| :: times[i] <= last)
  }

  /** Check `i` read the row as it was after the first `k` failures. */
  predicate ReadAfter(c: Crowd, m: nat, i: nat, k: nat)
    requires i < |c.starts|
  {
    && k <= |c.failures| && k <= i < k + m
    && (k > 0 ==> c.failures[k - 1] <= c.starts[i])
    && (k < |c.failures| ==> c.starts[i] <= c.failures[k])
    && Admitted(AfterFailures(c.base, c.failures[..k]), c.starts[i])
  }

  ghost predicate HasRead(c: Crowd, m: nat, i: nat)
    requires i < |c.starts|
  {
    exists k: nat :: ReadAfter(c, m, i, k)
  }

  ghost predicate CrowdInv(c: Crowd, m: nat) {
    && c.row == AfterFailures(c.base, c.failures)
    && |c.failures| <= |c.starts|
    && Ascending(c.starts, c.clock) && Ascending(c.failures, c.clock)
    && (forall q | 0 <= q < |c.failures| :: c.starts[q] <= c.failures[q])
    && (forall i | 0 <= i < |c.starts| :: HasRead(c, m, i))
  }

  lemma BeginKeepsReads(c: Crowd, m: nat, at: int)
    requires CrowdInv(c, m) && c.clock <= at && |c.starts| < |c.failures| + m && Admitted(c.row, at)
    ensures forall i | 0 <= i <= |c.starts| :: HasRead(CrowdStep(m, c, Begin(at)), m, i)
  {
    var d := CrowdStep(m, c, Begin(at));
    assert c.failures[..|c.failures|] == c.failures;
    assert ReadAfter(d, m, |c.starts|, |c.failures|);
    forall i | 0 <= i < |c.starts| ensures HasRead(d, m, i) {
      assert HasRead(c, m, i);
      var k: nat :| ReadAfter(c, m, i, k);
      assert ReadAfter(d, m, i, k);
    }
  }

  lemma FailKeepsReads(c: Crowd, m: nat, at: int)
    requires CrowdInv(c, m) && c.clock <= at && |c.failures| < |c.starts|
    ensures forall i | 0 <= i < |c.starts| :: HasRead(CrowdStep(m, c, Fail(at)), m, i)
  {
    var d := CrowdStep(m, c, Fail(at));
    forall i | 0 <= i < |c.starts| ensures HasRead(d, m, i) {
      assert HasRead(c, m, i);
      var k: nat :| ReadAfter(c, m, i, k);
      assert d.failures[..k] == c.failures[..k];
      assert ReadAfter(d, m, i, k);
    }
  }

  lemma BeginKeepsInv(c: Crowd, m: nat, at: int)
    requires CrowdInv(c, m) && c.clock <= at && |c.starts| < |c.failures| + m && Admitted(c.row, at)
    ensures CrowdInv(CrowdStep(m, c, Begin(at)), m)
  {
    BeginKeepsReads(c, m, at);
  }

  lemma FailKeepsInv(c: Crowd, m: nat, at: int)
    requires CrowdInv(c, m) && c.clock <= at && |c.failures| < |c.starts|
    ensures CrowdInv(CrowdStep(m, c, Fail(at)), m)
  {
    FailKeepsReads(c, m, at);
    assert CrowdStep(m, c, Fail(at)).failures[..|c.failures|] == c.failures;
  }

  lemma WaitingKeepsInv(c: Crowd, m: nat, at: int)
    requires CrowdInv(c, m) && c.clock <= at
    ensures CrowdInv(c.(clock := at), m)
  {
    forall i | 0 <= i < |c.starts| ensures HasRead(c.(clock := at), m, i) {
      assert HasRead(c, m, i);
      var k: nat :| ReadAfter(c, m, i, k);
      assert ReadAfter(c.(clock := at), m, i, k);
    }
  }

  lemma CrowdStepKeepsInv(c: Crowd, m: nat, e: Moment)
    requires CrowdInv(c, m)
    ensures CrowdInv(CrowdStep(m, c, e), m)
  {
    if e.at >= c.clock {
      WaitingKeepsInv(c, m, e.at);
      if e.Begin? && |c.starts| < |c.failures| + m && Admitted(c.row, e.at) {
        BeginKeepsInv(c, m, e.at);
      } else if e.Fail? && |c.failures| < |c.starts| {
        FailKeepsInv(c, m, e.at);
      }
    }
  }

  lemma {:induction false} CrowdRunKeepsInv(m: nat, row: Row, clock: int, events: seq<Moment>)
    ensures CrowdInv(CrowdRun(m, row, clock, events), m)
  {
    if events != [] {
      CrowdRunKeepsInv(m, row, clock, events[..|events| - 1]);
      CrowdStepKeepsInv(CrowdRun(m, row, clock, events[..|events| - 1]), m, events[|events| - 1]);
    }
  }

  /** The failures from `a` to before `b` are all counted, unless they take more than an hour. */
  lemma {:induction false} AllCounted(base: Row, times: seq<int>, last: int, a: nat, b: nat)
    requires Ascending(times, last) && a < b <= |times|
    ensures AfterFailures(base, times[..b]).attempts >= b - a || times[b - 1] - times[a] > HOUR_MS
  {
    assert times[..b][..b - 1] == times[..b - 1];
    if a + 1 < b {
      AllCounted(base, times, last, a, b - 1);
      assert times[..b - 1][b - 2] == times[b - 2];
    }
  }

  /** The gate holds check `j` up for the delay of the last failure it saw, which was no earlier than
   *  check `k - 1` began, and counted all failures since check `i`. */
  lemma HeldUp(c: Crowd, m: nat, i: nat, j: nat, k: nat)
    requires CrowdInv(c, m) && i < k && j < |c.starts| && ReadAfter(c, m, j, k)
    ensures c.starts[j] - c.starts[i] > HOUR_MS || c.starts[j] >= c.starts[k - 1] + Delay(k - i)
  {
    assert HasRead(c, m, i);
    var first: nat :| ReadAfter(c, m, i, first);
    AllCounted(c.base, c.failures, c.clock, first, k);
    var r := AfterFailures(c.base, c.failures[..k]);
    assert c.failures[..k][..k - 1] == c.failures[..k - 1];
    assert r.lastFailed == Some(c.failures[k - 1]);
    DelayGrows(k - i, r.attempts);
  }

  /** The soonest that a check can begin which has seen `n` failures of an hour, with `m` checks under way
   *  at most: of the last `m` failures it had to wait for one only. */
  function Soonest(m: nat, n: nat): nat
    requires m > 0
  {
    if n == 0 then 0 else Delay(n) + if n <= m then 0 else Soonest(m, n - m)
  }

  lemma {:induction false} Spread(c: Crowd, m: nat, i: nat, j: nat, n: nat)
    requires CrowdInv(c, m) && m > 0 && i + n + m - 1 <= j < |c.starts|
    ensures c.starts[j] - c.starts[i] > HOUR_MS || c.starts[j] - c.starts[i] >= Soonest(m, n)
  {
    if n > 0 {
      assert HasRead(c, m, j);
      var k: nat :| ReadAfter(c, m, j, k);
      if n > m { Spread(c, m, i, k - 1, n - m); }
      HeldUp(c, m, i, j, k);
      DelayGrows(n, k - i);
    }
  }

  /** The checks that begin between `from` and `to`, both included. */
  function BegunWithin(starts: seq<int>, from: int, to: int): set<nat> {
    set i | 0 <= i < |starts| && from <= starts[i] <= to
  }

  /** How many wrong passwords a run checks in the closed hour from `from` on. */
  function Guesses(m: nat, row: Row, clock: int, events: seq<Moment>, from: int): nat {
    |BegunWithin(CrowdRun(m, row, clock, events).starts, from, from + HOUR_MS)|
  }

  /** No more than `bound` in any hour of any run, whatever row it starts from. */
  ghost predicate AtMost(m: nat, bound: nat) {
    forall row, clock, events, from :: Guesses(m, row, clock, events, from) <= bound
  }

  lemma FewGuesses(m: nat, n: nat, row: Row, clock: int, events: seq<Moment>, from: int)
    requires m > 0 && Soonest(m, n + 1) > HOUR_MS
    ensures Guesses(m, row, clock, events, from) <= m + n
  {
    var c := CrowdRun(m, row, clock, events);
    CrowdRunKeepsInv(m, row, clock, events);
    var w := BegunWithin(c.starts, from, from + HOUR_MS);
    forall i, j | i in w && j in w && i <= j ensures j - i < m + n {
      if i + m + n <= j {
        Spread(c, m, i, j, n + 1);
      }
    }
    CloseTogether(w, m + n);
  }

  lemma CrowdOne(m: nat, row: Row, clock: int, events: seq<Moment>, e: Moment)
    ensures CrowdRun(m, row, clock, events + [e]) == CrowdStep(m, CrowdRun(m, row, clock, events), e)
  {
    assert (events + [e])[..|events|] == events;
  }

  function AtOnce(n: nat): (starts: seq<int>)
    ensures |starts| == n && forall i | 0 <= i < n :: starts[i] == 0
  {
    if n == 0 then [] else AtOnce(n - 1) + [0]
  }

  /** There is no bound but by how many can be under way: checks that read a clean row before the first
   *  failure is recorded all pass the gate. */
  lemma {:induction false} OverlappingChecksHaveNoBound(m: nat, n: nat) returns (events: seq<Moment>)
    requires n <= m
    ensures CrowdRun(m, Clean, 0, events) == Crowd(Clean, 0, Clean, AtOnce(n), [])
    ensures |BegunWithin(CrowdRun(m, Clean, 0, events).starts, 0, HOUR_MS)| == n
  {
    if n == 0 {
      events := [];
    } else {
      var before := OverlappingChecksHaveNoBound(m, n - 1);
      CrowdOne(m, Clean, 0, before, Begin(0));
      events := before + [Begin(0)];
    }
    assert BegunWithin(AtOnce(n), 0, HOUR_MS) == Below(n);
  }

  /** A run from a clean row that has begun as many checks as it could, all of them since time zero. */
  predicate IsFull(c: Crowd, m: nat, n: nat) {
    && |c.failures| == n && |c.starts| == n + m && c.row.attempts == n
    && (n == 0 ==> c.row == Clean)
    && (n > 0 ==> c.row.lastFailed.Some? && c.clock - MAX_MS <= c.row.lastFailed.value <= c.clock)
    && forall i | 0 <= i < |c.starts| :: 0 <= c.starts[i] <= c.clock
  }

  /** `k` failures are recorded at once. */
  lemma {:induction false} FailTogether(m: nat, before: seq<Moment>, n: nat, k: nat) returns (events: seq<Moment>)
    requires IsFull(CrowdRun(m, Clean, 0, before), m, n) && 0 < k <= m
    ensures var c, d := CrowdRun(m, Clean, 0, before), CrowdRun(m, Clean, 0, events);
            && d.starts == c.starts && d.clock == c.clock && |d.failures| == n + k
            && d.row == Row(n + k, Some(c.clock), if n + k >= THRESHOLD then Some(c.clock + Delay(n + k)) else None)
  {
    var now := CrowdRun(m, Clean, 0, before).clock;
    var some := before;
    if k > 1 {
      some := FailTogether(m, before, n, k - 1);
    }
    CrowdOne(m, Clean, 0, some, Fail(now));
    events := some + [Fail(now)];
  }

  /** `k` checks pass the gate at once. */
  lemma {:induction false} BeginTogether(m: nat, before: seq<Moment>, at: int, k: nat) returns (events: seq<Moment>)
    requires var c := CrowdRun(m, Clean, 0, before);
             c.clock <= at && Admitted(c.row, at) && |c.starts| + k <= |c.failures| + m
    ensures var c, d := CrowdRun(m, Clean, 0, before), CrowdRun(m, Clean, 0, events);
            && d.row == c.row && d.failures == c.failures && |d.starts| == |c.starts| + k
            && (forall i | 0 <= i < |d.starts| :: d.starts[i] == if i < |c.starts| then c.starts[i] else at)
            && d.clock == if k == 0 then c.clock else at
  {
    events := before;
    if k > 0 {
      var some := BeginTogether(m, before, at, k - 1);
      CrowdOne(m, Clean, 0, some, Begin(at));
      events := some + [Begin(at)];
    }
  }

  /** From one full state to the next: what is under way fails at once, and as many begin when the delay
   *  has passed. */
  lemma NextRound(m: nat, before: seq<Moment>, n: nat, k: nat) returns (events: seq<Moment>)
    requires IsFull(CrowdRun(m, Clean, 0, before), m, n) && 0 < k <= m
    ensures var c, d := CrowdRun(m, Clean, 0, before), CrowdRun(m, Clean, 0, events);
            IsFull(d, m, n + k) && d.clock == c.clock + Delay(n + k)
  {
    assert CrowdRun(m, Clean, 0, before).starts[0] >= 0;
    var failed := FailTogether(m, before, n, k);
    events := BeginTogether(m, failed, CrowdRun(m, Clean, 0, before).clock + Delay(n + k), k);
  }

  lemma {:induction false} RoundsAreSoonest(m: nat, n: nat) returns (events: seq<Moment>)
    requires m > 0
    ensures IsFull(CrowdRun(m, Clean, 0, events), m, n) && CrowdRun(m, Clean, 0, events).clock == Soonest(m, n)
    decreases n
  {
    if n == 0 {
      events := BeginTogether(m, [], 0, m);
    } else if n <= m {
      var before := RoundsAreSoonest(m, 0);
      events := NextRound(m, before, 0, n);
    } else {
      var before := RoundsAreSoonest(m, n - m);
      events := NextRound(m, before, n - m, m);
    }
  }

  lemma ManyGuesses(m: nat, n: nat) returns (events: seq<Moment>)
    requires m > 0 && Soonest(m, n) <= HOUR_MS
    ensures Guesses(m, Clean, 0, events, 0) == m + n
  {
    events := RoundsAreSoonest(m, n);
    assert BegunWithin(CrowdRun(m, Clean, 0, events).starts, 0, HOUR_MS) == Below(n + m);
  }

  /** With at most `m` checks under way at a time, no hour of any run sees more than `m + n` wrong passwords
   *  checked if and only if the soonest check that has seen `n + 1` failures comes after the hour. */
  lemma GuessesIff(m: nat, n: nat)
    requires m > 0
    ensures AtMost(m, m + n) <==> Soonest(m, n + 1) > HOUR_MS
  {
    if Soonest(m, n + 1) > HOUR_MS {
      forall row, clock, events, from ensures Guesses(m, row, clock, events, from) <= m + n {
        FewGuesses(m, n, row, clock, events, from);
      }
    } else {
      var events := ManyGuesses(m, n + 1);
      assert Guesses(m, Clean, 0, events, 0) > m + n;
    }
  }

  /** The most wrong passwords in an hour, with `m` checks under way at a time. */
  function Most(m: nat): nat {
    if m == 1 then 19 else if m == 2 then 32 else if m == 3 then 44 else 13 * m + 4
  }

  /** From nine failures on, a round takes five minutes. */
  lemma {:induction false} LongRounds(m: nat, n: nat, k: nat)
    requires m > 0 && n > 0 && n + m >= 9
    ensures Soonest(m, n + Rounds(m, k)) == Soonest(m, n) + k * MAX_MS
  {
    if k > 0 {
      LongRounds(m, n, k - 1);
      DelayTable(n + Rounds(m, k));
    }
  }

  /** `k` times `m`. */
  function Rounds(m: nat, k: nat): nat {
    if k == 0 then 0 else Rounds(m, k - 1) + m
  }

  lemma {:induction false} RoundsMultiply(m: nat, k: nat)
    ensures Rounds(m, k) == k * m
  {
    if k > 0 {
      RoundsMultiply(m, k - 1);
      assert k * m == (k - 1) * m + m;
    }
  }

  lemma ShortDelays()
    ensures Delay(1) == Delay(2) == Delay(3) == Delay(4) == 0
    ensures Delay(5) == 30_000 && Delay(6) == 60_000 && Delay(7) == 120_000 && Delay(8) == 240_000
  {
    DelayTable(5); DelayTable(6); DelayTable(7); DelayTable(8);
  }

  lemma SoonestOfOne(m: nat, n: nat)
    requires m == 1 && n == 18
    ensures Soonest(m, n) <= HOUR_MS < Soonest(m, n + 1)
  {
    ShortDelays();
    assert Soonest(1, 4) == 0;
    assert Soonest(1, 6) == 90_000;
    assert Soonest(1, 8) == 450_000;
    LongRounds(1, 8, 10); LongRounds(1, 8, 11);
    RoundsMultiply(1, 10); RoundsMultiply(1, 11);
  }

  lemma SoonestOfTwo(m: nat, n: nat)
    requires m == 2 && n == 30
    ensures Soonest(m, n) <= HOUR_MS < Soonest(m, n + 1)
  {
    ShortDelays();
    assert Soonest(2, 4) == 0 && Soonest(2, 3) == 0;
    assert Soonest(2, 8) == 300_000 && Soonest(2, 7) == 150_000;
    LongRounds(2, 8, 11); LongRounds(2, 7, 12);
    RoundsMultiply(2, 11); RoundsMultiply(2, 12);
  }

  lemma SoonestOfThree(m: nat, n: nat)
    requires m == 3 && n == 41
    ensures Soonest(m, n) <= HOUR_MS < Soonest(m, n + 1)
  {
    ShortDelays();
    assert Soonest(3, 8) == 270_000 && Soonest(3, 6) == 60_000;
    LongRounds(3, 8, 11); LongRounds(3, 6, 12);
    RoundsMultiply(3, 11); RoundsMultiply(3, 12);
  }

  lemma SoonestOfMany(m: nat, n: nat)
    requires m >= 4 && n == 12 * m + 4
    ensures Soonest(m, n) <= HOUR_MS < Soonest(m, n + 1)
  {
    ShortDelays();
    LongRounds(m, 5, 12);
    RoundsMultiply(m, 12);
    if m == 4 {
      assert Soonest(4, 8) == 240_000;
      LongRounds(4, 8, 11);
      RoundsMultiply(4, 11);
    } else {
      LongRounds(m, 4, 12);
    }
  }

  lemma SoonestOfMost(m: nat)
    requires m > 0
    ensures m <= Most(m) && Soonest(m, Most(m) - m) <= HOUR_MS < Soonest(m, Most(m) - m + 1)
  {
    var n := Most(m) - m;
    if m == 1 {
      SoonestOfOne(m, n);
    } else if m == 2 {
      SoonestOfTwo(m, n);
    } else if m == 3 {
      SoonestOfThree(m, n);
    } else {
      SoonestOfMany(m, n);
    }
  }

  /** It is exactly that: no run checks more in any hour, from whatever row, and one run checks as many. */
  lemma MostIsExact(m: nat) returns (events: seq<Moment>)
    requires m > 0
    ensures AtMost(m, Most(m)) && Guesses(m, Clean, 0, events, 0) == Most(m)
  {
    SoonestOfMost(m);
    var n := Most(m) - m;
    GuessesIff(m, n);
    events := ManyGuesses(m, n);
  }

  /** The promise of 19 wrong passwords an hour holds of every run if and only if there is never more than
   *  one check under way. */
  lemma NineteenIffOneAtATime(m: nat)
    requires m > 0
    ensures AtMost(m, 19) <==> m == 1
  {
    var events := MostIsExact(m);
    assert Guesses(m, Clean, 0, events, 0) == Most(m);
  }

  /** At most 19 wrong passwords are checked in any closed hour for each check that can be under way at
   *  the same time, for an account in any state; at most 14 for each, if there can be eight or more. */
  lemma NineteenForEachInFlight(m: nat, row: Row, clock: int, events: seq<Moment>, from: int)
    requires m >= 1
    ensures var w := BegunWithin(CrowdRun(m, row, clock, events).starts, from, from + HOUR_MS);
            |w| <= 19 * m && (m >= 8 ==> |w| <= 14 * m)
  {
    var most := MostIsExact(m);
    assert Guesses(m, row, clock, events, from) <= Most(m);
  }

  function Starts(checks: seq<Check>): (starts: seq<int>)
    ensures |starts| == |checks| && forall i | 0 <= i < |checks| :: starts[i] == checks[i].start
  {
    if checks == [] then [] else Starts(checks[..|checks| - 1]) + [checks[|checks| - 1].start]
  }

  function Records(checks: seq<Check>): (times: seq<int>)
    ensures |times| == |checks| && forall i | 0 <= i < |checks| :: times[i] == checks[i].recorded
  {
    if checks == [] then [] else Records(checks[..|checks| - 1]) + [checks[|checks| - 1].recorded]
  }

  /** A series is a run with one check under way at a time. */
  lemma {:induction false} SeriesIsOneAtATime(row: Row, clock: int, checks: seq<Check>) returns (events: seq<Moment>)
    requires InSeries(row, checks) && (checks != [] ==> clock <= checks[0].start)
    ensures var c := CrowdRun(1, row, clock, events);
            && c.row == After(row, checks) && c.starts == Starts(checks) && c.failures == Records(checks)
            && c.clock == if checks == [] then clock else checks[|checks| - 1].recorded
  {
    if checks == [] {
      return [];
    } else {
      var init, last := checks[..|checks| - 1], checks[|checks| - 1];
      var before := SeriesIsOneAtATime(row, clock, init);
      CrowdOne(1, row, clock, before, Begin(last.start));
      CrowdOne(1, row, clock, before + [Begin(last.start)], Fail(last.recorded));
      events := before + [Begin(last.start)] + [Fail(last.recorded)];
    }
  }

  // ---- what a caller is told -----------------------------------------------------------------------

  /** A refused caller is told the least whole number of seconds after which the gate opens. */
  lemma RetryAfterIsExact(row: Row, now: int)
    requires !Admitted(row, now)
    ensures RetryAfterSec(row, now) >= 1
    ensures Admitted(row, now + 1000 * RetryAfterSec(row, now))
    ensures !Admitted(row, now + 1000 * (RetryAfterSec(row, now) - 1))
  {
  }

  // ---- the account itself --------------------------------------------------------------------------

  datatype Outcome = Throttled(retryAfterSec: int) | WrongPassword | SignedIn

  /** The row of one account, and the statements that change it. */
  class Account {
    var attempts: nat
    var lastFailed: Option<int>
    var lockedUntil: Option<int>

    function View(): Row
      reads this
    {
      Row(attempts, lastFailed, lockedUntil)
    }

    constructor ()
      ensures View() == Clean
    {
      attempts, lastFailed, lockedUntil := 0, None, None;
    }

    /** One UPDATE: every expression sees the row as it was. */
    method RecordFailedLogin(now: int)
      modifies this
      ensures View() == RecordFailure(old(View()), now)
      ensures attempts >= 1 && (lockedUntil.Some? ==> now < lockedUntil.value <= now + MAX_MS)
      ensures old(lastFailed) == Some(now) ==> attempts == old(attempts) + 1
      ensures forall later | now + MAX_MS <= later :: Admitted(View(), later)
      ensures lastFailed == Some(now)
      ensures attempts == if old(lastFailed).None? || old(lastFailed).value < now - WINDOW_MS then 1 else old(attempts) + 1
      ensures lockedUntil == if attempts < 5 then None else Some(now + (if attempts == 5 then 30_000 else if attempts == 6 then 60_000
                                                                  else if attempts == 7 then 120_000 else if attempts == 8 then 240_000 else 300_000))
    {
      var counted := if lastFailed.None? || lastFailed.value < now - WINDOW_MS then 1 else attempts + 1;
      attempts, lastFailed, lockedUntil :=
        counted, Some(now), if counted >= THRESHOLD then Some(now + Delay(counted)) else None;
      DelayTable(counted);
    }

    method ResetFailedLogins()
      modifies this
      ensures View() == Clean
    {
      attempts, lastFailed, lockedUntil := 0, None, None;
    }

    /** `login`, from the row it reads to the UPDATE; `correct` is what the hash comparison finds. */
    method Login(start: int, recorded: int, correct: bool) returns (r: Outcome)
      requires start <= recorded
      modifies this
      ensures View() == Step(State(old(View()), start, old(View()), []), Event.Login(start, recorded, correct)).row
      ensures r.Throttled? <==> !Admitted(old(View()), start)
      ensures r.Throttled? ==> View() == old(View()) && Admitted(View(), start + 1000 * r.retryAfterSec)
                               && !Admitted(View(), start + 1000 * (r.retryAfterSec - 1))
      ensures r.SignedIn? ==> correct && View() == Clean
      ensures r.SignedIn? <==> (old(lockedUntil).Some? ==> old(lockedUntil).value <= start) && correct
      ensures r.WrongPassword? <==> (old(lockedUntil).Some? ==> old(lockedUntil).value <= start) && !correct
      ensures r.WrongPassword? ==> lastFailed == Some(recorded) && View() == RecordFailure(old(View()), recorded)
    {
      if lockedUntil.Some? && lockedUntil.value - start > 0 {
        RetryAfterIsExact(View(), start);
        return Throttled((lockedUntil.value - start + 999) / 1000);
      }
      if !correct {
        RecordFailedLogin(recorded);
        return WrongPassword;
      }
      ResetFailedLogins();
      return SignedIn;
    }
  }
}

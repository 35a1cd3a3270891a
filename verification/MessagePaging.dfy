/**
 * Reading the log in pages: gap sync after a reconnect, and scrolling back through history
 * (apps/api/src/db/messages.ts:201-241, apps/web/src/features/chat/gapSync.ts).
 */
module MessagePaging {
  import opened Common
  import opened MessageLog

  /** `rows` oldest first. */
  datatype Page = Page(rows: seq<Message>, hasMore: bool)

  /** What the gap-sync client asks for at most, and how many messages a page of it holds. */
  const MAX_PAGES := 25
  const GAP_PAGE := 200

  // ---- the two queries -----------------------------------------------------------------------------

  /** Rows of the conversation with `after < seq`. */
  function SelectAfter(t: Table, c: ConvId, after: nat): seq<Message> {
    if t == [] then []
    else
      var m := t[|t| - 1];
      SelectAfter(t[..|t| - 1], c, after) + if m.conversation == c && after < m.seqNo then [m] else []
  }

  /** Rows of the conversation with `seq < before`, or all of them. */
  function SelectBefore(t: Table, c: ConvId, before: Option<nat>): seq<Message> {
    if t == [] then []
    else
      var m := t[|t| - 1];
      SelectBefore(t[..|t| - 1], c, before)
      + if m.conversation == c && (before.Some? ==> m.seqNo < before.value) then [m] else []
  }

  function Limit(rows: seq<Message>, n: nat): seq<Message> {
    if |rows| <= n then rows else rows[..n]
  }

  function Reversed(rows: seq<Message>): (r: seq<Message>)
    ensures |r| == |rows|
    ensures forall i | 0 <= i < |rows| :: r[i] == rows[|rows| - 1 - i]
  {
    if rows == [] then [] else [rows[|rows| - 1]] + Reversed(rows[..|rows| - 1])
  }

  /** `listMessagesAfter`: ascending, one row more than the page to know whether there are more. */
  function ListAfter(t: Table, c: ConvId, after: nat, limit: nat): Page {
    var rows := Limit(SelectAfter(t, c, after), limit + 1);
    Page(Limit(rows, limit), |rows| > limit)
  }

  /** `listMessagesPage`: descending, cut, then turned around. */
  function ListBefore(t: Table, c: ConvId, before: Option<nat>, limit: nat): Page {
    var rows := Limit(Reversed(SelectBefore(t, c, before)), limit + 1);
    Page(Reversed(Limit(rows, limit)), |rows| > limit)
  }

  // ---- what they return on a gap-free log ----------------------------------------------------------

  /** How many rows a `before` cursor leaves. */
  function Older(t: Table, c: ConvId, before: Option<nat>): (n: nat)
    ensures n <= |RowsOf(t, c)|
  {
    var n := |RowsOf(t, c)|;
    if before.None? then n else if before.value == 0 then 0 else Min(before.value - 1, n)
  }

  lemma {:induction false} SelectAfterIsSuffix(t: Table, c: ConvId, after: nat)
    requires GapFree(t, c)
    ensures SelectAfter(t, c, after) == RowsOf(t, c)[Min(after, |RowsOf(t, c)|)..]
  {
    if t != [] {
      var init := t[..|t| - 1];
      GapFreePrefix(t, c);
      SelectAfterIsSuffix(init, c, after);
      var m := t[|t| - 1];
      if m.conversation == c {
        assert RowsOf(t, c)[|RowsOf(init, c)|] == m;
      }
    }
  }

  lemma GapFreePrefix(t: Table, c: ConvId)
    requires GapFree(t, c) && t != []
    ensures GapFree(t[..|t| - 1], c)
  {
    var init := t[..|t| - 1];
    forall i | 0 <= i < |RowsOf(init, c)| ensures RowsOf(init, c)[i].seqNo == i + 1 {
      assert RowsOf(init, c)[i] == RowsOf(t, c)[i];
    }
  }

  lemma {:induction false} SelectBeforeIsPrefix(t: Table, c: ConvId, before: Option<nat>)
    requires GapFree(t, c)
    ensures SelectBefore(t, c, before) == RowsOf(t, c)[..Older(t, c, before)]
  {
    if t != [] {
      var init := t[..|t| - 1];
      GapFreePrefix(t, c);
      SelectBeforeIsPrefix(init, c, before);
      var m := t[|t| - 1];
      if m.conversation == c {
        assert RowsOf(t, c)[|RowsOf(init, c)|] == m;
      }
    }
  }

  /** A gap-sync page is exactly the next messages, and `hasMore` is exact -- also when what is left is
   *  a multiple of the page size. */
  lemma AfterPageIsExact(t: Table, c: ConvId, after: nat, limit: nat)
    requires GapFree(t, c)
    ensures var n := |RowsOf(t, c)|;
            var from := Min(after, n);
            var to := Min(from + limit, n);
            && ListAfter(t, c, after, limit).rows == RowsOf(t, c)[from..to]
            && (ListAfter(t, c, after, limit).hasMore <==> after + limit < n)
  {
    SelectAfterIsSuffix(t, c, after);
  }

  lemma LastRows(rows: seq<Message>, limit: nat)
    ensures Reversed(Limit(Limit(Reversed(rows), limit + 1), limit)) == rows[Max(|rows| - limit, 0)..]
  {
    var back := Reversed(rows);
    var cut := Limit(Limit(back, limit + 1), limit);
    assert cut == back[..Min(limit, |rows|)];
    var r := Reversed(cut);
    forall i | 0 <= i < |r| ensures r[i] == rows[Max(|rows| - limit, 0) + i] {
      assert r[i] == cut[|cut| - 1 - i] == back[|cut| - 1 - i];
    }
  }

  /** So is a history page: the messages just before the cursor, oldest first. */
  lemma BeforePageIsExact(t: Table, c: ConvId, before: Option<nat>, limit: nat)
    requires GapFree(t, c)
    ensures var k := Older(t, c, before);
            && ListBefore(t, c, before, limit).rows == RowsOf(t, c)[Max(k - limit, 0)..k]
            && (ListBefore(t, c, before, limit).hasMore <==> limit < k)
  {
    var k := Older(t, c, before);
    SelectBeforeIsPrefix(t, c, before);
    LastRows(RowsOf(t, c)[..k], limit);
    assert RowsOf(t, c)[..k][Max(k - limit, 0)..] == RowsOf(t, c)[Max(k - limit, 0)..k];
  }

  // ---- the clients' loops --------------------------------------------------------------------------

  /** `views` are the states of the log that successive requests see. */
  ghost predicate Growing(views: seq<Table>, c: ConvId) {
    && (forall i | 0 <= i < |views| :: GapFree(views[i], c))
    && (forall i, j | 0 <= i <= j < |views| :: |RowsOf(views[i], c)| <= |RowsOf(views[j], c)|)
  }

  /** Numbered on from `after`, without a gap or a repeat. */
  ghost predicate Consecutive(rows: seq<Message>, c: ConvId, after: nat) {
    forall i | 0 <= i < |rows| :: rows[i].conversation == c && rows[i].seqNo == after + 1 + i
  }

  /** All of a conversation, numbered from 1. */
  predicate Numbered(rows: seq<Message>, c: ConvId) {
    forall i | 0 <= i < |rows| :: rows[i].conversation == c && rows[i].seqNo == i + 1
  }

  lemma RowsAreNumbered(t: Table, c: ConvId)
    requires GapFree(t, c)
    ensures Numbered(RowsOf(t, c), c)
  {
  }

  /** `page` is the next `limit` rows after `after`. */
  predicate FollowsOn(page: Page, rows: seq<Message>, after: nat, limit: nat) {
    var from := Min(after, |rows|);
    page.rows == rows[from..Min(from + limit, |rows|)] && (page.hasMore <==> after + limit < |rows|)
  }

  lemma PageFollowsOn(page: Page, rows: seq<Message>, c: ConvId, after: nat, limit: nat)
    requires Numbered(rows, c) && FollowsOn(page, rows, after, limit)
    ensures Consecutive(page.rows, c, after)
    ensures if page.hasMore then |page.rows| == limit && after + limit < |rows|
            else after + |page.rows| == Max(after, |rows|)
  {
  }

  lemma AfterFollowsOn(t: Table, c: ConvId, after: nat, limit: nat)
    requires GapFree(t, c)
    ensures FollowsOn(ListAfter(t, c, after, limit), RowsOf(t, c), after, limit)
  {
    AfterPageIsExact(t, c, after, limit);
  }

  /** `m` is the conversation's `i`th row in the `k`th view. */
  predicate FromView(m: Message, views: seq<Table>, c: ConvId, k: nat, i: int) {
    k < |views| && 0 <= i < |RowsOf(views[k], c)| && m == RowsOf(views[k], c)[i]
  }

  /** Each row was read, in order, from the view its page saw. */
  ghost predicate ReadFrom(rows: seq<Message>, views: seq<Table>, c: ConvId, after: nat) {
    forall i | 0 <= i < |rows| :: FromView(rows[i], views, c, i / GAP_PAGE, after + i)
  }

  lemma ReadOn(rows: seq<Message>, page: Page, views: seq<Table>, pages: nat, c: ConvId, after: nat)
    requires pages < |views| && |rows| == pages * GAP_PAGE && ReadFrom(rows, views, c, after)
    requires FollowsOn(page, RowsOf(views[pages], c), after + |rows|, GAP_PAGE)
    ensures ReadFrom(rows + page.rows, views, c, after)
  {
    var all := rows + page.rows;
    forall i | 0 <= i < |all| ensures FromView(all[i], views, c, i / GAP_PAGE, after + i) {
      if i >= |rows| {
        assert i / GAP_PAGE == pages;
        assert all[i] == page.rows[i - |rows|];
      }
    }
  }

  /** The page that is read when `collected` came from the pages before it. */
  lemma SyncRound(page: Page, views: seq<Table>, pages: nat, c: ConvId, lastSeen: nat, collected: seq<Message>)
    requires pages < |views| && |collected| == pages * GAP_PAGE && ReadFrom(collected, views, c, lastSeen)
    requires Numbered(RowsOf(views[pages], c), c) && FollowsOn(page, RowsOf(views[pages], c), lastSeen + |collected|, GAP_PAGE)
    ensures var all := collected + page.rows;
            && ReadFrom(all, views, c, lastSeen)
            && (page.rows != [] ==> page.rows[|page.rows| - 1].seqNo == lastSeen + |all|)
            && (if page.hasMore then |page.rows| == GAP_PAGE && lastSeen + |all| < |RowsOf(views[pages], c)|
                else lastSeen + |all| == Max(lastSeen + |collected|, |RowsOf(views[pages], c)|))
  {
    PageFollowsOn(page, RowsOf(views[pages], c), c, lastSeen + |collected|, GAP_PAGE);
    ReadOn(collected, page, views, pages, c, lastSeen);
  }

  lemma ReadIsConsecutive(rows: seq<Message>, views: seq<Table>, c: ConvId, after: nat)
    requires Growing(views, c) && ReadFrom(rows, views, c, after)
    ensures Consecutive(rows, c, after)
  {
    forall i | 0 <= i < |rows| ensures rows[i].conversation == c && rows[i].seqNo == after + 1 + i {
      assert FromView(rows[i], views, c, i / GAP_PAGE, after + i);
      assert GapFree(views[i / GAP_PAGE], c);
    }
  }

  /** `syncOne`: pages on from the last seq received until there are no more, or the page ceiling. */
  method SyncOne(views: seq<Table>, c: ConvId, lastSeen: nat) returns (collected: seq<Message>, pages: nat, caughtUp: bool)
    requires |views| == MAX_PAGES && Growing(views, c)
    ensures ReadFrom(collected, views, c, lastSeen)
    ensures Consecutive(collected, c, lastSeen)
    ensures 1 <= pages <= MAX_PAGES
    ensures caughtUp ==> lastSeen + |collected| == Max(lastSeen, |RowsOf(views[pages - 1], c)|)
    ensures !caughtUp ==> |collected| == MAX_PAGES * GAP_PAGE
  {
    collected, pages, caughtUp := [], 0, false;
    var afterSeq := lastSeen;
    while pages < MAX_PAGES
      invariant 0 <= pages <= MAX_PAGES
      invariant ReadFrom(collected, views, c, lastSeen)
      invariant afterSeq == lastSeen + |collected|
      invariant |collected| == pages * GAP_PAGE && !caughtUp
      invariant pages > 0 ==> afterSeq <= |RowsOf(views[pages - 1], c)|
    {
      var result := ListAfter(views[pages], c, afterSeq, GAP_PAGE);
      AfterFollowsOn(views[pages], c, afterSeq, GAP_PAGE);
      RowsAreNumbered(views[pages], c);
      SyncRound(result, views, pages, c, lastSeen, collected);
      collected := collected + result.rows;
      if result.rows != [] {
        afterSeq := result.rows[|result.rows| - 1].seqNo;
      }
      pages := pages + 1;
      if !result.hasMore {
        caughtUp := true;
        break;
      }
    }
    ReadIsConsecutive(collected, views, c, lastSeen);
  }

  ghost predicate FromSome(m: Message, views: seq<Table>, c: ConvId, i: int) {
    exists k: nat :: FromView(m, views, c, k, i)
  }

  /** `shown` is the last part of the first `n` rows; each row is as the page it came with saw it. */
  ghost predicate ShownFrom(shown: seq<Message>, views: seq<Table>, c: ConvId, n: nat) {
    |shown| <= n && forall i | 0 <= i < |shown| :: FromSome(shown[i], views, c, n - |shown| + i)
  }

  /** `page` is the last `limit` of the first `k` rows. */
  predicate EndsAt(page: Page, rows: seq<Message>, k: nat, limit: nat) {
    k <= |rows| && page.rows == rows[Max(k - limit, 0)..k] && (page.hasMore <==> limit < k)
  }

  lemma BeforeEndsAt(t: Table, c: ConvId, before: Option<nat>, limit: nat)
    requires GapFree(t, c)
    ensures EndsAt(ListBefore(t, c, before, limit), RowsOf(t, c), Older(t, c, before), limit)
  {
    BeforePageIsExact(t, c, before, limit);
  }

  lemma ShownOn(shown: seq<Message>, page: Page, views: seq<Table>, k: nat, c: ConvId, n: nat, limit: nat)
    requires k < |views| && ShownFrom(shown, views, c, n) && EndsAt(page, RowsOf(views[k], c), n - |shown|, limit)
    ensures ShownFrom(page.rows + shown, views, c, n)
  {
    var all := page.rows + shown;
    forall i | 0 <= i < |all| ensures FromSome(all[i], views, c, n - |all| + i) {
      if i < |page.rows| {
        assert FromView(all[i], views, c, k, n - |all| + i);
      } else {
        assert all[i] == shown[i - |page.rows|];
      }
    }
  }

  lemma FromSomeIsNumbered(m: Message, views: seq<Table>, c: ConvId, i: int)
    requires Growing(views, c) && FromSome(m, views, c, i)
    ensures i >= 0 && m.seqNo == i + 1
  {
    var k: nat :| FromView(m, views, c, k, i);
    assert GapFree(views[k], c);
  }

  lemma OlderThan(t: Table, c: ConvId, k: nat)
    requires k <= |RowsOf(t, c)|
    ensures Older(t, c, Some(k + 1)) == k
  {
  }

  /** The page before the oldest message shown, in whatever view, ends where what is shown begins. */
  lemma NextPage(shown: seq<Message>, views: seq<Table>, k: nat, c: ConvId, n: nat, limit: nat)
    requires k < |views| && Growing(views, c) && shown != [] && ShownFrom(shown, views, c, n) && n <= |RowsOf(views[k], c)|
    ensures EndsAt(ListBefore(views[k], c, Some(shown[0].seqNo), limit), RowsOf(views[k], c), n - |shown|, limit)
  {
    FromSomeIsNumbered(shown[0], views, c, n - |shown|);
    OlderThan(views[k], c, n - |shown|);
    BeforeEndsAt(views[k], c, Some(shown[0].seqNo), limit);
  }

  /** `k` full pages. */
  function Filled(k: nat, limit: nat): nat {
    if k == 0 then 0 else Filled(k - 1, limit) + limit
  }

  lemma PageLength(page: Page, rows: seq<Message>, k: nat, limit: nat)
    requires EndsAt(page, rows, k, limit)
    ensures |page.rows| == if page.hasMore then limit else k
  {
  }

  /** One table, read to the end. */
  lemma StillHistory(shown: seq<Message>, views: seq<Table>, t: Table, c: ConvId)
    requires ShownFrom(shown, views, c, |shown|) && |shown| == |RowsOf(t, c)| && forall v | v in views :: v == t
    ensures shown == RowsOf(t, c)
  {
    forall i | 0 <= i < |shown| ensures shown[i] == RowsOf(t, c)[i] {
      assert FromSome(shown[i], views, c, i);
      var k: nat :| FromView(shown[i], views, c, k, i);
      assert views[k] in views;
    }
  }

  /** The page before `before`, in the `k`th view, when that is where what is shown begins. */
  lemma PageJoins(shown: seq<Message>, views: seq<Table>, k: nat, c: ConvId, n: nat, before: Option<nat>, limit: nat)
    requires k < |views| && ShownFrom(shown, views, c, n)
    requires EndsAt(ListBefore(views[k], c, before, limit), RowsOf(views[k], c), n - |shown|, limit)
    ensures var page := ListBefore(views[k], c, before, limit);
            var all := page.rows + shown;
            && ShownFrom(all, views, c, n) && (page.hasMore <==> |all| < n)
            && |all| == if page.hasMore then |shown| + limit else n
  {
    var page := ListBefore(views[k], c, before, limit);
    ShownOn(shown, page, views, k, c, n, limit);
    PageLength(page, RowsOf(views[k], c), n - |shown|, limit);
  }

  lemma FirstPage(page: Page, views: seq<Table>, c: ConvId, n: nat, limit: nat)
    requires 0 < |views| && EndsAt(page, RowsOf(views[0], c), n, limit)
    ensures ShownFrom(page.rows, views, c, n) && (page.hasMore <==> |page.rows| < n)
    ensures page.hasMore ==> |page.rows| == limit
  {
    PageLength(page, RowsOf(views[0], c), n, limit);
    forall i | 0 <= i < |page.rows| ensures FromSome(page.rows[i], views, c, n - |page.rows| + i) {
      assert FromView(page.rows[i], views, c, 0, n - |page.rows| + i);
    }
  }

  /** The page a conversation opens with. */
  method OpenHistory(views: seq<Table>, c: ConvId, limit: nat) returns (shown: seq<Message>, hasMore: bool)
    requires 0 < |views| && Growing(views, c)
    ensures var n := |RowsOf(views[0], c)|;
            && ShownFrom(shown, views, c, n) && (hasMore <==> |shown| < n) && (hasMore ==> |shown| == limit)
  {
    var page := ListBefore(views[0], c, None, limit);
    BeforeEndsAt(views[0], c, None, limit);
    FirstPage(page, views, c, |RowsOf(views[0], c)|, limit);
    return page.rows, page.hasMore;
  }

  /** The page before the oldest message shown. */
  method LoadOlder(views: seq<Table>, k: nat, c: ConvId, shown: seq<Message>, limit: nat, ghost n: nat)
    returns (longer: seq<Message>, hasMore: bool)
    requires k < |views| && Growing(views, c) && shown != [] && ShownFrom(shown, views, c, n) && n <= |RowsOf(views[k], c)|
    ensures ShownFrom(longer, views, c, n) && (hasMore <==> |longer| < n)
    ensures |longer| == if hasMore then |shown| + limit else n
  {
    var page := ListBefore(views[k], c, Some(shown[0].seqNo), limit);
    NextPage(shown, views, k, c, n, limit);
    PageJoins(shown, views, k, c, n, Some(shown[0].seqNo), limit);
    return page.rows + shown, page.hasMore;
  }

  /** Scrolling back, page by page, while the log may grow: it shows exactly what the conversation held
   *  when it was opened, and goes on until there is no more of it. */
  method LoadHistory(views: seq<Table>, c: ConvId, limit: nat) returns (history: seq<Message>, hasMore: bool)
    requires 0 < limit && 0 < |views| && Growing(views, c)
    ensures ShownFrom(history, views, c, |RowsOf(views[0], c)|)
    ensures hasMore <==> |history| < |RowsOf(views[0], c)|
    ensures hasMore ==> |history| == Filled(|views|, limit)
  {
    ghost var n := |RowsOf(views[0], c)|;
    history, hasMore := OpenHistory(views, c, limit);
    var pages := 1;
    assert Filled(0, limit) == 0;
    while hasMore && pages < |views|
      invariant 1 <= pages <= |views|
      invariant ShownFrom(history, views, c, n)
      invariant hasMore <==> |history| < n
      invariant hasMore ==> |history| == Filled(pages, limit) && 0 < |history|
    {
      history, hasMore := LoadOlder(views, pages, c, history, limit, n);
      pages := pages + 1;
    }
  }

  lemma {:induction false} FilledGrows(k: nat, limit: nat)
    requires 0 < limit
    ensures k <= Filled(k, limit)
  {
    if k > 0 { FilledGrows(k - 1, limit); }
  }

  /** Of a log that stands still it shows all. */
  method LoadStillHistory(t: Table, c: ConvId, limit: nat) returns (history: seq<Message>)
    requires 0 < limit && GapFree(t, c)
    ensures history == RowsOf(t, c)
  {
    var views := seq(|RowsOf(t, c)| + 1, _ => t);
    var hasMore;
    history, hasMore := LoadHistory(views, c, limit);
    FilledGrows(|views|, limit);
    StillHistory(history, views, t, c);
  }

  // ---- the log they read ---------------------------------------------------------------------------

  lemma {:induction false} RowsOfPrefix(u: Table, n: nat, c: ConvId)
    requires n <= |u|
    ensures RowsOf(u[..n], c) <= RowsOf(u, c)
  {
    if n < |u| {
      var init := u[..|u| - 1];
      RowsOfPrefix(init, n, c);
      assert init[..n] == u[..n];
    } else {
      assert u[..n] == u;
    }
  }

  /** The same message; its text and whether it is a tombstone may have changed. */
  predicate SameMessage(m: Message, n: Message) {
    (m.conversation, m.seqNo, m.sender, m.key, m.kind) == (n.conversation, n.seqNo, n.sender, n.key, n.kind)
    && (m.deleted ==> n.deleted)
  }

  ghost predicate Continues(rows: seq<Message>, later: seq<Message>) {
    |rows| <= |later| && forall i | 0 <= i < |rows| :: SameMessage(rows[i], later[i])
  }

  lemma {:induction false} RowsKeepIdentity(t: Table, u: Table, c: ConvId)
    requires SameRows(t, u)
    ensures |RowsOf(t, c)| == |RowsOf(u, c)| && Continues(RowsOf(t, c), RowsOf(u, c))
  {
    if t != [] {
      assert SameMessage(t[|t| - 1], u[|u| - 1]);
      RowsKeepIdentity(t[..|t| - 1], u[..|u| - 1], c);
    }
  }

  lemma FurtherOn(t: Table, u: Table, c: ConvId)
    requires Extends(t, u)
    ensures Continues(RowsOf(t, c), RowsOf(u, c))
  {
    RowsOfPrefix(u, |t|, c);
    RowsKeepIdentity(t, u[..|t|], c);
  }

  lemma AlwaysGapFree(events: seq<Event>, c: ConvId)
    ensures GapFree(Run(Empty, events).messages, c)
  {
    RunKeepsInv(Empty, events);
    if c !in Run(Empty, events).lastSeq {
      NoRows(Run(Empty, events).messages, c);
    }
  }

  lemma {:induction false} RunJoins(s: State, a: seq<Event>, b: seq<Event>)
    ensures Run(s, a + b) == Run(Run(s, a), b)
  {
    if b == [] {
      assert a + b == a;
    } else {
      RunJoins(s, a, b[..|b| - 1]);
      assert (a + b)[..|a + b| - 1] == a + b[..|b| - 1];
    }
  }

  /** The log only grows: a later state of any run has every message of an earlier one, under its number,
   *  and the new ones after them. */
  lemma LaterReadsReachFurther(before: seq<Event>, more: seq<Event>, c: ConvId)
    ensures var t := Run(Empty, before).messages;
            var u := Run(Empty, before + more).messages;
            GapFree(t, c) && Continues(RowsOf(t, c), RowsOf(u, c))
  {
    var s := Run(Empty, before);
    AlwaysGapFree(before, c);
    RunJoins(Empty, before, more);
    RowsStay(s, more);
    FurtherOn(s.messages, Run(s, more).messages, c);
  }

  predicate Increasing(cuts: seq<nat>, n: nat) {
    && (forall i | 0 <= i < |cuts| :: cuts[i] <= n)
    && (forall i, j | 0 <= i <= j < |cuts| :: cuts[i] <= cuts[j])
  }

  /** What requests made at these moments of a run see. */
  function ViewsAt(events: seq<Event>, cuts: seq<nat>): (views: seq<Table>)
    requires Increasing(cuts, |events|)
  {
    seq(|cuts|, i requires 0 <= i < |cuts| => Run(Empty, events[..cuts[i]]).messages)
  }

  ghost predicate EarlierThan(views: seq<Table>, c: ConvId, rows: seq<Message>) {
    forall v | v in views :: Continues(RowsOf(v, c), rows)
  }

  lemma ViewContinues(events: seq<Event>, k: nat, n: nat, c: ConvId)
    requires k <= n <= |events|
    ensures GapFree(Run(Empty, events[..k]).messages, c)
    ensures Continues(RowsOf(Run(Empty, events[..k]).messages, c), RowsOf(Run(Empty, events[..n]).messages, c))
  {
    assert events[..n] == events[..k] + events[k..n];
    LaterReadsReachFurther(events[..k], events[k..n], c);
  }

  /** So what successive requests see is as the loops need it. */
  lemma ViewsGrow(events: seq<Event>, cuts: seq<nat>, c: ConvId)
    requires Increasing(cuts, |events|)
    ensures Growing(ViewsAt(events, cuts), c)
    ensures EarlierThan(ViewsAt(events, cuts), c, RowsOf(Run(Empty, events).messages, c))
  {
    var views := ViewsAt(events, cuts);
    assert events[..|events|] == events;
    forall i, j | 0 <= i <= j < |views| ensures GapFree(views[i], c) && |RowsOf(views[i], c)| <= |RowsOf(views[j], c)| {
      ViewContinues(events, cuts[i], cuts[j], c);
    }
    forall v | v in views ensures Continues(RowsOf(v, c), RowsOf(Run(Empty, events).messages, c)) {
      var i :| 0 <= i < |views| && views[i] == v;
      ViewContinues(events, cuts[i], |events|, c);
    }
  }

  /** The rows from `from` on begin with these messages. */
  ghost predicate FoundAt(shown: seq<Message>, rows: seq<Message>, from: int) {
    0 <= from && forall i | 0 <= i < |shown| :: from + i < |rows| && SameMessage(shown[i], rows[from + i])
  }

  lemma SyncIsOfTheLog(collected: seq<Message>, views: seq<Table>, rows: seq<Message>, c: ConvId, after: nat)
    requires ReadFrom(collected, views, c, after) && EarlierThan(views, c, rows)
    ensures FoundAt(collected, rows, after)
  {
    forall i | 0 <= i < |collected| ensures after + i < |rows| && SameMessage(collected[i], rows[after + i]) {
      assert FromView(collected[i], views, c, i / GAP_PAGE, after + i);
      assert views[i / GAP_PAGE] in views;
    }
  }

  /** A sync whose pages are read at any moments of any run collects the messages of that run, each once
   *  and in order, up to what its last page saw. */
  method SyncLive(events: seq<Event>, cuts: seq<nat>, c: ConvId, lastSeen: nat)
    returns (collected: seq<Message>, pages: nat, caughtUp: bool)
    requires |cuts| == MAX_PAGES && Increasing(cuts, |events|)
    ensures FoundAt(collected, RowsOf(Run(Empty, events).messages, c), lastSeen)
    ensures 1 <= pages <= MAX_PAGES
    ensures caughtUp ==>
              lastSeen + |collected| == Max(lastSeen, |RowsOf(Run(Empty, events[..cuts[pages - 1]]).messages, c)|)
    ensures !caughtUp ==> |collected| == MAX_PAGES * GAP_PAGE
  {
    var views := ViewsAt(events, cuts);
    ViewsGrow(events, cuts, c);
    collected, pages, caughtUp := SyncOne(views, c, lastSeen);
    SyncIsOfTheLog(collected, views, RowsOf(Run(Empty, events).messages, c), c, lastSeen);
  }

  method ScrollViews(views: seq<Table>, c: ConvId, limit: nat, ghost rows: seq<Message>, ghost n: nat)
    returns (history: seq<Message>, hasMore: bool)
    requires 0 < limit && 0 < |views| && Growing(views, c) && EarlierThan(views, c, rows) && n == |RowsOf(views[0], c)|
    ensures (hasMore <==> |history| < n) && FoundAt(history, rows, n - |history|)
    ensures hasMore ==> |history| == Filled(|views|, limit)
  {
    history, hasMore := LoadHistory(views, c, limit);
    HistoryIsOfTheLog(history, views, rows, c, n);
  }

  /** A history scrolled back at any moments of any run shows the messages of that run, each once and in
   *  order, up to what there was when it was opened. */
  method ScrollLive(events: seq<Event>, cuts: seq<nat>, c: ConvId, limit: nat) returns (history: seq<Message>, hasMore: bool)
    requires 0 < limit && 0 < |cuts| && Increasing(cuts, |events|)
    ensures var n := |RowsOf(Run(Empty, events[..cuts[0]]).messages, c)|;
            && (hasMore <==> |history| < n)
            && FoundAt(history, RowsOf(Run(Empty, events).messages, c), n - |history|)
    ensures hasMore ==> |history| == Filled(|cuts|, limit)
  {
    var views := ViewsAt(events, cuts);
    ViewsGrow(events, cuts, c);
    ghost var n := |RowsOf(Run(Empty, events[..cuts[0]]).messages, c)|;
    history, hasMore := ScrollViews(views, c, limit, RowsOf(Run(Empty, events).messages, c), n);
  }

  lemma HistoryIsOfTheLog(shown: seq<Message>, views: seq<Table>, rows: seq<Message>, c: ConvId, n: nat)
    requires 0 < |views| && ShownFrom(shown, views, c, n) && n == |RowsOf(views[0], c)|
    requires EarlierThan(views, c, rows)
    ensures FoundAt(shown, rows, n - |shown|)
  {
    assert views[0] in views;
    forall i | 0 <= i < |shown| ensures n - |shown| + i < |rows| && SameMessage(shown[i], rows[n - |shown| + i]) {
      assert FromSome(shown[i], views, c, n - |shown| + i);
      var k: nat :| FromView(shown[i], views, c, k, n - |shown| + i);
      assert views[k] in views;
    }
  }

  /** Appends, edits and tombstones between two history pages leave the older one with the same messages. */
  lemma OlderPagesStay(t: Table, u: Table, c: ConvId, before: nat, limit: nat)
    requires GapFree(t, c) && GapFree(u, c) && Extends(t, u) && before <= |RowsOf(t, c)|
    ensures var p, q := ListBefore(t, c, Some(before), limit), ListBefore(u, c, Some(before), limit);
            && p.hasMore == q.hasMore && |p.rows| == |q.rows| && Continues(p.rows, q.rows)
  {
    FurtherOn(t, u, c);
    OlderSame(t, u, c, before);
    BeforeEndsAt(t, c, Some(before), limit);
    BeforeEndsAt(u, c, Some(before), limit);
    PagesContinue(ListBefore(t, c, Some(before), limit), ListBefore(u, c, Some(before), limit),
                  RowsOf(t, c), RowsOf(u, c), Older(t, c, Some(before)), limit);
  }

  lemma OlderSame(t: Table, u: Table, c: ConvId, before: nat)
    requires before <= |RowsOf(t, c)| <= |RowsOf(u, c)|
    ensures Older(t, c, Some(before)) == Older(u, c, Some(before))
  {
  }

  lemma PagesContinue(p: Page, q: Page, rows: seq<Message>, later: seq<Message>, k: nat, limit: nat)
    requires Continues(rows, later) && EndsAt(p, rows, k, limit) && EndsAt(q, later, k, limit)
    ensures p.hasMore == q.hasMore && |p.rows| == |q.rows| && Continues(p.rows, q.rows)
  {
  }
}

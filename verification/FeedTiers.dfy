/** The fetcher's feed tiers: which feeds are due, how a fetch moves a feed between tiers, and the
    batch of row updates that one cycle writes at its end. */
module FeedTiers {
  import opened Wrappers

  const TIER_ORDER: seq<string> := ["active", "slowing", "quiet", "dormant", "dead"]

  /** A row of the feeds table. Times are seconds. */
  datatype Feed = Feed(id: string, tier: string, lastFetched: Option<int>, lastArticle: Option<int>,
                       intervalMins: Option<int>, errorCount: int)

  /** Days of quiet after which a tier is left (one number for each tier but dead), and minutes
      between fetches in each tier. */
  datatype Config = Config(thresholds: seq<int>, intervals: map<string, Option<int>>)

  ghost predicate GoodConfig(c: Config) {
    && |c.thresholds| == 4
    && c.intervals.Keys == (set t | t in TIER_ORDER)
    && c.intervals["dead"] == None
  }

  /** What a fetch of a feed brought: `published` is the newest date among the new articles. */
  datatype Outcome = Failed | Fetched(hasNew: bool, published: Option<int>)

  predicate Known(tier: string) {
    tier in TIER_ORDER
  }

  function Index(tier: string): (i: nat)
    requires Known(tier)
    ensures i < 5 && TIER_ORDER[i] == tier
  {
    if tier == "active" then 0
    else if tier == "slowing" then 1
    else if tier == "quiet" then 2
    else if tier == "dormant" then 3
    else 4
  }

  /** Missing and empty tiers read as active. */
  function Current(f: Feed): string {
    if f.tier == "" then "active" else f.tier
  }

  /** Whole days since the newest article, rounded down. */
  function DaysQuiet(last: int, now: int): int {
    (now - last) / 86400
  }

  // ── The tier decision ────────────────────────────────────────────────────

  /** Raises: an unknown tier is looked up in the order. */
  datatype Decision = Stay | Move(tier: string) | Raises

  /** The first threshold at or after tier index `i` that the days of quiet reach. */
  function FirstReached(t: seq<int>, i: nat, days: int): (r: nat)
    requires i <= |t|
    ensures i <= r <= |t| && (r < |t| ==> days >= t[r])
    ensures forall k | i <= k < r :: days < t[k]
    decreases |t| - i
  {
    if i == |t| || days >= t[i] then i else FirstReached(t, i + 1, days)
  }

  /** Where a fetch without new articles takes a feed. */
  function QuietDecision(current: string, t: seq<int>, days: int): Decision
    requires |t| == 4
  {
    if !Known(current) then (if FirstReached(t, 0, days) < 4 then Raises else Stay)
    else
      var r := FirstReached(t, Index(current), days);
      if r < 4 then Move(TIER_ORDER[r + 1]) else Stay
  }

  function Decide(f: Feed, hasNew: bool, t: seq<int>, now: int): Decision
    requires |t| == 4
  {
    if hasNew then (if Current(f) == "active" then Stay else Move("active"))
    else if f.lastArticle == None then Stay
    else QuietDecision(Current(f), t, DaysQuiet(f.lastArticle.value, now))
  }

  /** The loop over the tiers: the first one whose threshold is reached and whose next tier lies
      below the current one. */
  method ComputeNewTier(f: Feed, hasNew: bool, t: seq<int>, now: int) returns (d: Decision)
    requires |t| == 4
    ensures d == Decide(f, hasNew, t, now)
  {
    var current := Current(f);
    if hasNew && current != "active" {
      return Move("active");
    }
    if hasNew || f.lastArticle == None {
      return Stay;
    }
    var days := DaysQuiet(f.lastArticle.value, now);
    for i := 0 to 4
      invariant !Known(current) ==> forall k | 0 <= k < i :: days < t[k]
      invariant Known(current) ==> forall k | Index(current) <= k < i :: days < t[k]
    {
      if days >= t[i] {
        var next := TIER_ORDER[i + 1];
        assert Known(next) && Index(next) == i + 1;
        if next != current {
          if !Known(current) {
            return Raises;
          }
          if Index(next) > Index(current) {
            return Move(next);
          }
        }
      }
    }
    d := Stay;
  }

  ghost predicate Nondecreasing(t: seq<int>) {
    forall i, j | 0 <= i < j < |t| :: t[i] <= t[j]
  }

  /** A move to the tier just below. */
  ghost predicate AtMostOneDown(current: string, d: Decision)
    requires Known(current)
  {
    d == Stay || (d.Move? && Known(d.tier) && Index(d.tier) == Index(current) + 1)
  }

  /** No quiet fetch skips a tier exactly when the thresholds never decrease. */
  lemma OneTierAtATime(t: seq<int>)
    requires |t| == 4
    ensures (forall current: string, days: int | Known(current) :: AtMostOneDown(current, QuietDecision(current, t, days)))
        <==> Nondecreasing(t)
  {
    if forall current: string, days: int | Known(current) :: AtMostOneDown(current, QuietDecision(current, t, days)) {
      forall i, j | 0 <= i < j < |t| ensures t[i] <= t[j] {
        var current := TIER_ORDER[i];
        assert Known(current) && AtMostOneDown(current, QuietDecision(current, t, t[j]));
        assert Index(current) == i;
      }
    }
  }

  /** The downgraded tier, in full: with nondecreasing thresholds a quiet fetch moves a feed down
      exactly when its own tier's threshold is reached. */
  lemma QuietStep(current: string, t: seq<int>, days: int)
    requires |t| == 4 && Nondecreasing(t) && Known(current)
    ensures QuietDecision(current, t, days) ==
            if Index(current) < 4 && days >= t[Index(current)] then Move(TIER_ORDER[Index(current) + 1]) else Stay
  {
    var i := Index(current);
    if i < 4 && days < t[i] {
      assert forall k | i <= k < 4 :: days < t[k];
    }
  }

  // ── Rows, updates and batches ────────────────────────────────────────────

  /** The columns that one update sets; None leaves a column alone. */
  datatype Update = Update(lastFetched: Option<int>, lastArticle: Option<int>, tier: Option<string>,
                           errorCount: Option<int>, intervalMins: Option<Option<int>>)

  function Updated(f: Feed, u: Update): Feed {
    f.(lastFetched := if u.lastFetched.Some? then u.lastFetched else f.lastFetched,
       lastArticle := if u.lastArticle.Some? then u.lastArticle else f.lastArticle,
       tier := u.tier.GetOr(f.tier),
       errorCount := u.errorCount.GetOr(f.errorCount),
       intervalMins := u.intervalMins.GetOr(f.intervalMins))
  }

  type Queue = seq<(string, Update)>

  function UpdatedRow(f: Feed, entry: (string, Update)): Feed {
    if f.id == entry.0 then Updated(f, entry.1) else f
  }

  /** A row after a queue of updates. */
  function RowAfter(f: Feed, queue: Queue): (r: Feed)
    ensures r.id == f.id
  {
    if queue == [] then f
    else UpdatedRow(RowAfter(f, queue[..|queue| - 1]), queue[|queue| - 1])
  }

  function RowsAfter(feeds: seq<Feed>, queue: Queue): seq<Feed> {
    seq(|feeds|, i requires 0 <= i < |feeds| => RowAfter(feeds[i], queue))
  }

  /** The updates of one feed, in order. */
  function Own(queue: Queue, id: string): Queue {
    if queue == [] then []
    else
      var last := queue[|queue| - 1];
      Own(queue[..|queue| - 1], id) + if last.0 == id then [last] else []
  }

  lemma {:induction false} OwnUpdatesDecide(f: Feed, queue: Queue)
    ensures RowAfter(f, queue) == RowAfter(f, Own(queue, f.id))
  {
    if queue != [] {
      var rest, last := queue[..|queue| - 1], queue[|queue| - 1];
      OwnUpdatesDecide(f, rest);
      if last.0 == f.id {
        assert (Own(rest, f.id) + [last])[..|Own(rest, f.id)|] == Own(rest, f.id);
      } else {
        assert Own(queue, f.id) == Own(rest, f.id);
      }
    }
  }

  /** However the fetches of a cycle interleave, the flush writes the same table, so long as each
      feed's own updates keep their order. */
  lemma InterleavingIsIrrelevant(feeds: seq<Feed>, a: Queue, b: Queue)
    requires forall id: string :: Own(a, id) == Own(b, id)
    ensures RowsAfter(feeds, a) == RowsAfter(feeds, b)
  {
    forall i | 0 <= i < |feeds| ensures RowAfter(feeds[i], a) == RowAfter(feeds[i], b) {
      OwnUpdatesDecide(feeds[i], a);
      OwnUpdatesDecide(feeds[i], b);
      assert Own(a, feeds[i].id) == Own(b, feeds[i].id);
    }
  }

  lemma {:induction false} RowAfterBoth(f: Feed, a: Queue, b: Queue)
    ensures RowAfter(f, a + b) == RowAfter(RowAfter(f, a), b)
  {
    if b == [] {
      assert a + b == a;
    } else {
      RowAfterBoth(f, a, b[..|b| - 1]);
      assert (a + b)[..|a + b| - 1] == a + b[..|b| - 1];
    }
  }

  lemma {:induction false} OwnBoth(a: Queue, b: Queue, id: string)
    ensures Own(a + b, id) == Own(a, id) + Own(b, id)
  {
    if b == [] {
      assert a + b == a;
    } else {
      OwnBoth(a, b[..|b| - 1], id);
      assert (a + b)[..|a + b| - 1] == a + b[..|b| - 1];
    }
  }

  // ── One fetch ────────────────────────────────────────────────────────────

  const NO_UPDATE: Update := Update(None, None, None, None, None)

  function AfterFetch(success: bool, published: Option<int>, tier: Option<string>, count: int, now: int): Update {
    if success then Update(Some(now), published, tier, Some(0), None)
    else Update(Some(now), None, None, Some(count + 1), None)
  }

  function IntervalOf(c: Config, tier: string): Option<int> {
    if tier in c.intervals then c.intervals[tier] else Some(30)
  }

  /** The updates that one fetch of a feed makes; `count` is the row's error count when read. */
  function FetchUpdates(f: Feed, o: Outcome, c: Config, count: int, now: int): Queue
    requires |c.thresholds| == 4
  {
    match o
    case Failed => [(f.id, AfterFetch(false, None, None, count, now))]
    case Fetched(hasNew, published) =>
      var date := if hasNew then published else None;
      match Decide(f, hasNew, c.thresholds, now)
      case Raises => []
      case Stay => [(f.id, AfterFetch(true, date, None, 0, now))]
      case Move(tier) =>
        [(f.id, AfterFetch(true, date, Some(tier), 0, now)),
         (f.id, NO_UPDATE.(intervalMins := Some(IntervalOf(c, tier))))]
  }

  predicate Due(f: Feed, now: int) {
    && f.tier != "dead"
    && (f.lastFetched == None || now - f.lastFetched.value >= 60 * Minutes(f))
  }

  /** A missing or zero interval reads as thirty minutes. */
  function Minutes(f: Feed): int {
    if f.intervalMins.GetOr(0) == 0 then 30 else f.intervalMins.value
  }

  // ── The database object ──────────────────────────────────────────────────

  ghost predicate UniqueFeeds(feeds: seq<Feed>) {
    forall i, j | 0 <= i < j < |feeds| :: feeds[i].id != feeds[j].id
  }

  /** The rows due at `now`, in table order. */
  function DueRows(feeds: seq<Feed>, now: int): seq<Feed> {
    if feeds == [] then []
    else
      var last := feeds[|feeds| - 1];
      DueRows(feeds[..|feeds| - 1], now) + if Due(last, now) then [last] else []
  }

  lemma DueExactly(f: Feed, now: int)
    ensures Due(f, now) <==>
      && f.tier != "dead"
      && (f.lastFetched.None? ||
          now - f.lastFetched.value >= 60 * (if f.intervalMins in {None, Some(0)} then 30 else f.intervalMins.value))
  {
  }

  lemma {:induction false} DueRowsOf(feeds: seq<Feed>, now: int)
    ensures forall f :: f in DueRows(feeds, now) <==> f in feeds && Due(f, now)
  {
    if feeds != [] {
      DueRowsOf(feeds[..|feeds| - 1], now);
      assert feeds == feeds[..|feeds| - 1] + [feeds[|feeds| - 1]];
    }
  }

  /** The due rows are in table order, each as often as it is in the table. */
  lemma DueInTableOrder(a: seq<Feed>, b: seq<Feed>, now: int)
    ensures DueRows(a + b, now) == DueRows(a, now) + DueRows(b, now)
    ensures forall f :: DueRows([f], now) == if Due(f, now) then [f] else []
  {
    hide Due;
    forall f ensures DueRows([f], now) == if Due(f, now) then [f] else [] {
      assert [f][..0] == [];
      assert DueRows([], now) == [];
    }
    DueOfBoth(a, b, now);
  }

  lemma {:induction false} DueOfBoth(a: seq<Feed>, b: seq<Feed>, now: int)
    ensures DueRows(a + b, now) == DueRows(a, now) + DueRows(b, now)
  {
    hide Due;
    if b == [] {
      assert a + b == a;
    } else {
      DueOfBoth(a, b[..|b| - 1], now);
      assert (a + b)[..|a + b| - 1] == a + b[..|b| - 1];
    }
  }

  /** The error count that is read back for a feed: its first row's, zero without a row. */
  function CountOf(feeds: seq<Feed>, id: string): int {
    if feeds == [] then 0
    else if feeds[0].id == id then feeds[0].errorCount
    else CountOf(feeds[1..], id)
  }

  class DB {
    var feeds: seq<Feed>
    var queue: Queue
    var batching: bool

    constructor (rows: seq<Feed>)
      ensures feeds == rows && queue == [] && !batching
    {
      feeds, queue, batching := rows, [], false;
    }

    method GetFeedsDue(now: int) returns (due: seq<Feed>)
      ensures due == DueRows(feeds, now)
      ensures forall f :: f in due <==>
        && f in feeds && f.tier != "dead"
        && (f.lastFetched.None? ||
            now - f.lastFetched.value >= 60 * (if f.intervalMins in {None, Some(0)} then 30 else f.intervalMins.value))
    {
      due := [];
      for i := 0 to |feeds|
        invariant due == DueRows(feeds[..i], now)
      {
        var row := feeds[i];
        assert feeds[..i + 1][..i] == feeds[..i];
        if row.tier != "dead" {
          if row.lastFetched == None {
            due := due + [row];
          } else {
            if now - row.lastFetched.value >= 60 * Minutes(row) {
              due := due + [row];
            }
          }
        }
      }
      assert feeds[..|feeds|] == feeds;
      DueRowsOf(feeds, now);
    }

    /** An update of every row with the id. */
    method UpdateTable(entry: (string, Update))
      modifies `feeds
      ensures feeds == RowsAfter(old(feeds), [entry])
    {
      var rows: seq<Feed> := [];
      for i := 0 to |feeds|
        invariant feeds == old(feeds) && |rows| == i
        invariant forall k | 0 <= k < i :: rows[k] == UpdatedRow(feeds[k], entry)
      {
        rows := rows + [UpdatedRow(feeds[i], entry)];
      }
      forall k | 0 <= k < |feeds| ensures RowAfter(feeds[k], [entry]) == UpdatedRow(feeds[k], entry) {
        assert [entry][..0] == [];
      }
      feeds := rows;
    }

    method BeginBatch()
      modifies this
      ensures batching && queue == [] && feeds == old(feeds)
    {
      batching, queue := true, [];
    }

    /** Queued while batching, written at once otherwise. */
    method Write(entry: (string, Update))
      modifies `feeds, `queue
      ensures batching ==> feeds == old(feeds) && queue == old(queue) + [entry]
      ensures !batching ==> queue == old(queue) && feeds == RowsAfter(old(feeds), [entry])
    {
      if batching {
        queue := queue + [entry];
      } else {
        UpdateTable(entry);
      }
    }

    method ErrorCount(id: string) returns (count: int)
      ensures count == CountOf(feeds, id)
    {
      var i := 0;
      while i < |feeds| && feeds[i].id != id
        invariant 0 <= i <= |feeds| && CountOf(feeds, id) == CountOf(feeds[i..], id)
      {
        assert feeds[i..][1..] == feeds[i + 1..];
        i := i + 1;
      }
      count := if i < |feeds| then feeds[i].errorCount else 0;
    }

    method UpdateFeedAfterFetch(id: string, success: bool, published: Option<int>, tier: Option<string>, now: int)
      modifies `feeds, `queue
      ensures var entry := (id, AfterFetch(success, published, tier, CountOf(old(feeds), id), now));
        if batching then feeds == old(feeds) && queue == old(queue) + [entry]
        else queue == old(queue) && feeds == RowsAfter(old(feeds), [entry])
    {
      if success {
        Write((id, AfterFetch(true, published, tier, 0, now)));
      } else {
        var count := ErrorCount(id);
        Write((id, AfterFetch(false, None, None, count, now)));
      }
    }

    /** The fetch of one feed, batched or not: the same updates reach the queue or the table. */
    method FetchOne(f: Feed, o: Outcome, c: Config, now: int)
      requires GoodConfig(c)
      modifies `feeds, `queue
      ensures var updates := FetchUpdates(f, o, c, CountOf(old(feeds), f.id), now);
        if batching then feeds == old(feeds) && queue == old(queue) + updates
        else queue == old(queue) && feeds == RowsAfter(old(feeds), updates)
    {
      if o.Failed? {
        UpdateFeedAfterFetch(f.id, false, None, None, now);
        return;
      }
      var date := if o.hasNew then o.published else None;
      var d := ComputeNewTier(f, o.hasNew, c.thresholds, now);
      match d
      case Raises =>
        NoRowUpdated(feeds);
      case Stay =>
        UpdateFeedAfterFetch(f.id, true, date, None, now);
      case Move(tier) =>
        UpdateFeedAfterFetch(f.id, true, date, Some(tier), now);
        Write((f.id, NO_UPDATE.(intervalMins := Some(IntervalOf(c, tier)))));
        ghost var updates := FetchUpdates(f, o, c, CountOf(old(feeds), f.id), now);
        assert updates == [updates[0]] + [updates[1]];
        RowsAfterBoth(old(feeds), [updates[0]], [updates[1]]);
    }

    /** Every queued update in order, then an empty queue. */
    method FlushBatch()
      modifies this
      ensures feeds == RowsAfter(old(feeds), old(queue)) && queue == [] && !batching
    {
      NoRowUpdated(feeds);
      for i := 0 to |queue|
        invariant queue == old(queue) && feeds == RowsAfter(old(feeds), queue[..i])
      {
        assert queue[..i] + [queue[i]] == queue[..i + 1];
        RowsAfterBoth(old(feeds), queue[..i], [queue[i]]);
        UpdateTable(queue[i]);
      }
      assert queue[..|queue|] == queue;
      queue, batching := [], false;
    }

    /** One cycle: every due feed is fetched, and the batch is flushed; each due row becomes what
        its own fetch makes of it, and the others stay. */
    method RunOnce(now: int, c: Config, outcome: string -> Outcome)
      requires GoodConfig(c) && UniqueFeeds(feeds) && !batching && queue == []
      modifies this
      ensures feeds == Cycled(old(feeds), now, c, outcome) && !batching && queue == []
    {
      hide FetchUpdates, CountOf, DueRows, Cycled, Due, RowsAfter;
      var due := GetFeedsDue(now);
      if due == [] {
        NothingDue(feeds, now, c, outcome);
        return;
      }
      BeginBatch();
      for i := 0 to |due|
        invariant feeds == old(feeds) && batching
        invariant queue == Fetches(feeds, due[..i], now, c, outcome)
      {
        assert due[..i + 1][..i] == due[..i];
        FetchOne(due[i], outcome(due[i].id), c, now);
      }
      assert due[..|due|] == due;
      CycleIsRowByRow(feeds, now, c, outcome);
      FlushBatch();
    }
  }

  lemma RowsAfterBoth(feeds: seq<Feed>, a: Queue, b: Queue)
    ensures RowsAfter(RowsAfter(feeds, a), b) == RowsAfter(feeds, a + b)
  {
    forall i | 0 <= i < |feeds| ensures RowAfter(RowAfter(feeds[i], a), b) == RowAfter(feeds[i], a + b) {
      RowAfterBoth(feeds[i], a, b);
    }
  }

  lemma NoRowUpdated(feeds: seq<Feed>)
    ensures RowsAfter(feeds, []) == feeds
  {}

  // ── Cycles row by row ────────────────────────────────────────────────────

  /** The row after one cycle. */
  function Visited(f: Feed, now: int, c: Config, o: Outcome): Feed
    requires |c.thresholds| == 4
  {
    if Due(f, now) then RowAfter(f, FetchUpdates(f, o, c, f.errorCount, now)) else f
  }

  ghost function Cycled(feeds: seq<Feed>, now: int, c: Config, outcome: string -> Outcome): seq<Feed>
    requires |c.thresholds| == 4
  {
    seq(|feeds|, i requires 0 <= i < |feeds| => Visited(feeds[i], now, c, outcome(feeds[i].id)))
  }

  /** The updates that fetching the given feeds one after the other queues. */
  ghost function Fetches(feeds: seq<Feed>, due: seq<Feed>, now: int, c: Config, outcome: string -> Outcome): Queue
    requires |c.thresholds| == 4
  {
    if due == [] then []
    else
      var f := due[|due| - 1];
      Fetches(feeds, due[..|due| - 1], now, c, outcome)
      + FetchUpdates(f, outcome(f.id), c, CountOf(feeds, f.id), now)
  }

  lemma {:induction false} OwnOfFetch(f: Feed, o: Outcome, c: Config, count: int, now: int, id: string)
    requires |c.thresholds| == 4
    ensures var u := FetchUpdates(f, o, c, count, now); Own(u, id) == if id == f.id then u else []
  {
    var u := FetchUpdates(f, o, c, count, now);
    if |u| == 1 {
      assert u[..0] == [];
      assert Own(u, id) == Own(u[..0], id) + if u[0].0 == id then [u[0]] else [];
    } else if |u| == 2 {
      assert u[..1] == [u[0]] && u[..1][..0] == [];
      assert Own(u[..1], id) == Own(u[..1][..0], id) + if u[0].0 == id then [u[0]] else [];
    }
  }

  lemma NoneOwned(id: string)
    ensures Own([], id) == []
  {
  }

  /** The queued updates of a feed are those of its own fetch, if it is among the fetched. */
  lemma {:induction false} OwnOfFetches(feeds: seq<Feed>, due: seq<Feed>, now: int, c: Config, outcome: string -> Outcome, f: Feed)
    requires |c.thresholds| == 4 && UniqueFeeds(due)
    requires forall k | 0 <= k < |due| :: due[k].id == f.id ==> due[k] == f
    ensures Own(Fetches(feeds, due, now, c, outcome), f.id) ==
            if f in due then FetchUpdates(f, outcome(f.id), c, CountOf(feeds, f.id), now) else []
  {
    hide FetchUpdates, CountOf, Own;
    if due == [] {
      assert Own([], f.id) == [] by {
        NoneOwned(f.id);
      }
    } else {
      var n := |due| - 1;
      var g := due[n];
      OwnOfFetches(feeds, due[..n], now, c, outcome, f);
      var before := Fetches(feeds, due[..n], now, c, outcome);
      var last := FetchUpdates(g, outcome(g.id), c, CountOf(feeds, g.id), now);
      assert Fetches(feeds, due, now, c, outcome) == before + last;
      OwnBoth(before, last, f.id);
      OwnOfFetch(g, outcome(g.id), c, CountOf(feeds, g.id), now, f.id);
      assert f in due <==> f in due[..n] || g == f by {
        assert due == due[..n] + [g];
      }
      if g == f {
        assert f !in due[..n];
      }
    }
  }

  lemma {:induction false} DueRowsAre(feeds: seq<Feed>, now: int)
    requires UniqueFeeds(feeds)
    ensures forall f :: f in DueRows(feeds, now) <==> f in feeds && Due(f, now)
    ensures UniqueFeeds(DueRows(feeds, now))
  {
    if feeds != [] {
      var n := |feeds| - 1;
      DueRowsAre(feeds[..n], now);
      assert feeds == feeds[..n] + [feeds[n]];
      forall i | 0 <= i < |DueRows(feeds[..n], now)| ensures DueRows(feeds[..n], now)[i].id != feeds[n].id {
        assert DueRows(feeds[..n], now)[i] in feeds[..n];
      }
    }
  }

  /** A feed without a row has no errors. */
  lemma {:induction false} NoRowNoErrors(feeds: seq<Feed>, id: string)
    requires forall f | f in feeds :: f.id != id
    ensures CountOf(feeds, id) == 0
  {
    if feeds != [] {
      assert feeds[0] in feeds;
      NoRowNoErrors(feeds[1..], id);
    }
  }

  lemma {:induction false} CountIsTheRows(feeds: seq<Feed>, i: nat)
    requires UniqueFeeds(feeds) && i < |feeds|
    ensures CountOf(feeds, feeds[i].id) == feeds[i].errorCount
  {
    if i > 0 {
      CountIsTheRows(feeds[1..], i - 1);
    }
  }

  /** A whole batched cycle treats each feed as if it were alone. */
  lemma CycleIsRowByRow(feeds: seq<Feed>, now: int, c: Config, outcome: string -> Outcome)
    requires |c.thresholds| == 4 && UniqueFeeds(feeds)
    ensures RowsAfter(feeds, Fetches(feeds, DueRows(feeds, now), now, c, outcome)) == Cycled(feeds, now, c, outcome)
  {
    var due := DueRows(feeds, now);
    var queue := Fetches(feeds, due, now, c, outcome);
    DueRowsAre(feeds, now);
    forall i | 0 <= i < |feeds| ensures RowAfter(feeds[i], queue) == Visited(feeds[i], now, c, outcome(feeds[i].id)) {
      forall k | 0 <= k < |due| && due[k].id == feeds[i].id ensures due[k] == feeds[i] {
        assert due[k] in feeds;
      }
      OwnOfFetches(feeds, due, now, c, outcome, feeds[i]);
      OwnUpdatesDecide(feeds[i], queue);
      CountIsTheRows(feeds, i);
    }
  }

  lemma NothingDue(feeds: seq<Feed>, now: int, c: Config, outcome: string -> Outcome)
    requires |c.thresholds| == 4 && UniqueFeeds(feeds) && DueRows(feeds, now) == []
    ensures Cycled(feeds, now, c, outcome) == feeds
  {
    hide Due, DueRows, FetchUpdates, RowAfter;
    DueRowsOf(feeds, now);
    var cycled := Cycled(feeds, now, c, outcome);
    forall i | 0 <= i < |feeds| ensures cycled[i] == feeds[i] {
      assert feeds[i] in feeds && feeds[i] !in DueRows(feeds, now);
      assert cycled[i] == Visited(feeds[i], now, c, outcome(feeds[i].id));
    }
  }

  // ── Runs of cycles ───────────────────────────────────────────────────────

  datatype Cycle = Cycle(now: int, config: Config, outcome: Outcome)

  ghost predicate GoodRun(run: seq<Cycle>) {
    forall i | 0 <= i < |run| :: GoodConfig(run[i].config)
  }

  /** A feed's row after a run of cycles. */
  ghost function After(f: Feed, run: seq<Cycle>): Feed
    requires GoodRun(run)
  {
    if run == [] then f
    else
      var n := |run| - 1;
      Visited(After(f, run[..n]), run[n].now, run[n].config, run[n].outcome)
  }

  /** How many cycles of the run fetched the feed successfully. */
  ghost function Successes(f: Feed, run: seq<Cycle>): nat
    requires GoodRun(run)
  {
    if run == [] then 0
    else
      var n := |run| - 1;
      Successes(f, run[..n]) + if Due(After(f, run[..n]), run[n].now) && run[n].outcome.Fetched? then 1 else 0
  }

  /** What one cycle makes of a row. */
  lemma VisitedRow(f: Feed, now: int, c: Config, o: Outcome)
    requires GoodConfig(c) && Due(f, now)
    ensures var r := Visited(f, now, c, o);
      match o
      case Failed => r == f.(lastFetched := Some(now), errorCount := f.errorCount + 1)
      case Fetched(hasNew, published) =>
        var date := if hasNew && published.Some? then published else f.lastArticle;
        match Decide(f, hasNew, c.thresholds, now)
        case Raises => r == f
        case Stay => r == f.(lastFetched := Some(now), lastArticle := date, errorCount := 0)
        case Move(tier) => r == f.(lastFetched := Some(now), lastArticle := date, errorCount := 0, tier := tier,
                                   intervalMins := IntervalOf(c, tier))
  {
    var u := FetchUpdates(f, o, c, f.errorCount, now);
    if |u| == 1 {
      assert u[..0] == [];
      assert RowAfter(f, u) == UpdatedRow(RowAfter(f, u[..0]), u[0]);
    } else if |u| == 2 {
      assert u[..1] == [u[0]] && u[..1][..0] == [];
      assert RowAfter(f, u[..1]) == UpdatedRow(RowAfter(f, u[..1][..0]), u[0]);
      assert RowAfter(f, u) == UpdatedRow(RowAfter(f, u[..1]), u[1]);
    }
  }

  /** New articles make a due feed active; a missing tier is left as it is, and counts as active. */
  lemma NewArticlesActivate(f: Feed, now: int, c: Config, published: Option<int>)
    requires GoodConfig(c) && Due(f, now)
    ensures Current(Visited(f, now, c, Fetched(true, published))) == "active"
    ensures var r := Visited(f, now, c, Fetched(true, published));
      if f.tier in ["", "active"] then r.tier == f.tier && r.intervalMins == f.intervalMins
      else r.tier == "active" && r.intervalMins == c.intervals["active"]
  {
    VisitedRow(f, now, c, Fetched(true, published));
  }

  /** A dead feed is never fetched and its row never changes, whatever the run. */
  lemma {:induction false} DeadStaysDead(f: Feed, run: seq<Cycle>)
    requires GoodRun(run) && f.tier == "dead"
    ensures After(f, run) == f && Successes(f, run) == 0
  {
    if run != [] {
      DeadStaysDead(f, run[..|run| - 1]);
    }
  }

  /** A run that brings no new articles, over thresholds that never decrease, with the feed quiet
      for the dormant threshold at every cycle. */
  ghost predicate QuietRun(f: Feed, run: seq<Cycle>) {
    && f.lastArticle.Some? && Known(Current(f))
    && GoodRun(run)
    && forall i | 0 <= i < |run| ::
         && (run[i].outcome.Fetched? ==> !run[i].outcome.hasNew)
         && Nondecreasing(run[i].config.thresholds)
         && DaysQuiet(f.lastArticle.value, run[i].now) >= run[i].config.thresholds[3]
  }

  /** What one cycle makes of a row, by the clock: a row that is dead, or whose interval since the
      last fetch has not passed, stays; of the others a fetch without new articles moves the feed
      down when its last article is as many days old as the threshold of its own tier, or of a
      tier below, says; a feed that never had an article stays in its tier. */
  lemma QuietFetchExact(f: Feed, now: int, c: Config, published: Option<int>)
    requires GoodConfig(c) && f.tier in TIER_ORDER + [""]
    ensures var r := Visited(f, now, c, Fetched(false, published));
            var i := TierNumber(f.tier);
            var interval := if f.intervalMins in {None, Some(0)} then 30 else f.intervalMins.value;
      if f.tier == "dead" || (f.lastFetched.Some? && now - f.lastFetched.value < 60 * interval) then r == f
      else
        && r.lastFetched == Some(now) && r.errorCount == 0 && r.lastArticle == f.lastArticle && r.id == f.id
        && (f.lastArticle.None? || (forall k | i <= k < 4 :: now - f.lastArticle.value < 86400 * c.thresholds[k]) ==>
              r.tier == f.tier && r.intervalMins == f.intervalMins)
        && (forall k | i <= k < 4 ::
              f.lastArticle.Some? && now - f.lastArticle.value >= 86400 * c.thresholds[k]
              && (forall j | i <= j < k :: now - f.lastArticle.value < 86400 * c.thresholds[j]) ==>
                && r.tier == ["active", "slowing", "quiet", "dormant", "dead"][k + 1]
                && r.intervalMins == c.intervals[r.tier])
  {
    hide Visited, FetchUpdates, RowAfter;
    DueExactly(f, now);
    if Due(f, now) {
      VisitedRow(f, now, c, Fetched(false, published));
      if f.lastArticle.Some? {
        forall k | 0 <= k < 4
          ensures DaysQuiet(f.lastArticle.value, now) >= c.thresholds[k] <==>
                  now - f.lastArticle.value >= 86400 * c.thresholds[k]
        {
          WholeDays(f.lastArticle.value, now, c.thresholds[k]);
        }
      }
    } else {
      NotVisited(f, now, c, Fetched(false, published));
    }
  }

  /** The number of a tier; a missing one counts as active. */
  function TierNumber(tier: string): nat {
    if tier == "slowing" then 1 else if tier == "quiet" then 2 else if tier == "dormant" then 3
    else if tier == "dead" then 4 else 0
  }

  lemma WholeDays(last: int, now: int, days: int)
    ensures DaysQuiet(last, now) >= days <==> now - last >= 86400 * days
  {
  }

  lemma NotVisited(f: Feed, now: int, c: Config, o: Outcome)
    requires GoodConfig(c) && !Due(f, now)
    ensures Visited(f, now, c, o) == f
  {
  }

  // ── Fetched again when the interval has passed ───────────────────────────

  /** The cycles that come before the feed's interval since its last fetch has passed leave its row
      alone, and the first one after that fetches it. */
  lemma {:induction false} FetchedWhenDue(f: Feed, run: seq<Cycle>, next: Cycle)
    requires GoodRun(run) && GoodConfig(next.config)
    requires f.tier in TIER_ORDER + [""] && f.tier != "dead" && f.lastFetched.Some?
    requires var interval := if f.intervalMins in {None, Some(0)} then 30 else f.intervalMins.value;
      && (forall i | 0 <= i < |run| :: run[i].now < f.lastFetched.value + 60 * interval)
      && next.now >= f.lastFetched.value + 60 * interval
    ensures After(f, run) == f && Successes(f, run) == 0
    ensures var r := After(f, run + [next]);
      && r.lastFetched == Some(next.now)
      && r.errorCount == if next.outcome.Failed? then f.errorCount + 1 else 0
  {
    hide Visited;
    WaitsForInterval(f, run);
    DueExactly(f, next.now);
    VisitedRow(f, next.now, next.config, next.outcome);
    assert (run + [next])[..|run|] == run;
  }

  lemma {:induction false} WaitsForInterval(f: Feed, run: seq<Cycle>)
    requires GoodRun(run) && f.lastFetched.Some?
    requires var interval := if f.intervalMins in {None, Some(0)} then 30 else f.intervalMins.value;
      forall i | 0 <= i < |run| :: run[i].now < f.lastFetched.value + 60 * interval
    ensures After(f, run) == f && Successes(f, run) == 0
  {
    if run != [] {
      WaitsForInterval(f, run[..|run| - 1]);
      DueExactly(f, run[|run| - 1].now);
    }
  }

  /** A cycle that fetches a live feed, and what comes after it: the row records the fetch, and the
      feed, unless that has made it dead, is not fetched again before the interval it has then has
      passed, and is fetched by the first cycle after that. */
  lemma FetchedAgain(f: Feed, first: Cycle, run: seq<Cycle>, next: Cycle)
    requires GoodConfig(first.config) && GoodRun(run) && GoodConfig(next.config)
    requires f.tier in TIER_ORDER + [""] && f.tier != "dead"
    requires f.lastFetched.None? ||
      first.now - f.lastFetched.value >= 60 * (if f.intervalMins in {None, Some(0)} then 30 else f.intervalMins.value)
    ensures var r := After(f, [first]);
      && r.lastFetched == Some(first.now) && r.tier in TIER_ORDER + [""]
      && (r.tier == "dead" ==> After(f, [first] + run) == r)
      && (r.tier != "dead" ==>
            var interval := if r.intervalMins in {None, Some(0)} then 30 else r.intervalMins.value;
            (forall i | 0 <= i < |run| :: run[i].now < first.now + 60 * interval)
            && next.now >= first.now + 60 * interval ==>
              After(f, [first] + run) == r && After(f, [first] + (run + [next])).lastFetched == Some(next.now))
  {
    hide Visited;
    DueExactly(f, first.now);
    VisitedRow(f, first.now, first.config, first.outcome);
    AfterOne(f, first);
    var r := After(f, [first]);
    AfterBoth(f, [first], run);
    AfterBoth(f, [first], run + [next]);
    if r.tier == "dead" {
      DeadStaysDead(r, run);
    } else {
      var interval := if r.intervalMins in {None, Some(0)} then 30 else r.intervalMins.value;
      if (forall i | 0 <= i < |run| :: run[i].now < first.now + 60 * interval) && next.now >= first.now + 60 * interval {
        FetchedWhenDue(r, run, next);
      }
    }
  }

  lemma AfterOne(f: Feed, c: Cycle)
    requires GoodConfig(c.config)
    ensures After(f, [c]) == Visited(f, c.now, c.config, c.outcome)
  {
    assert [c][..0] == [] && After(f, []) == f;
  }

  lemma {:induction false} AfterBoth(f: Feed, a: seq<Cycle>, b: seq<Cycle>)
    requires GoodRun(a) && GoodRun(b)
    ensures GoodRun(a + b) && After(f, a + b) == After(After(f, a), b)
  {
    if b == [] {
      assert a + b == a;
    } else {
      AfterBoth(f, a, b[..|b| - 1]);
      assert (a + b)[..|a + b| - 1] == a + b[..|b| - 1];
    }
  }

  lemma QuietSinks(f: Feed, now: int, c: Config, o: Outcome)
    requires GoodConfig(c) && Nondecreasing(c.thresholds) && (o.Fetched? ==> !o.hasNew)
    requires Known(Current(f)) && f.lastArticle.Some? && DaysQuiet(f.lastArticle.value, now) >= c.thresholds[3]
    ensures var r := Visited(f, now, c, o);
      && Known(Current(r)) && r.lastArticle == f.lastArticle
      && Index(Current(r)) == Index(Current(f)) + if Due(f, now) && o.Fetched? then 1 else 0
  {
    hide FetchUpdates, RowAfter;
    if Due(f, now) {
      VisitedRow(f, now, c, o);
      QuietStep(Current(f), c.thresholds, DaysQuiet(f.lastArticle.value, now));
    }
  }

  /** In a quiet run the feed sinks exactly one tier for each successful fetch, whatever fails in
      between. */
  lemma {:induction false} QuietDescent(f: Feed, run: seq<Cycle>)
    requires QuietRun(f, run)
    ensures var r := After(f, run);
      && Known(Current(r)) && Index(Current(r)) == Index(Current(f)) + Successes(f, run)
      && r.lastArticle == f.lastArticle
  {
    hide Visited, Index, Known, Current, DaysQuiet;
    if run != [] {
      var n := |run| - 1;
      QuietDescent(f, run[..n]);
      QuietSinks(After(f, run[..n]), run[n].now, run[n].config, run[n].outcome);
    }
  }

  /** So the feed is dead after exactly as many successful fetches as tiers remain, and no cycle
      makes one more. */
  lemma QuietFeedDies(f: Feed, run: seq<Cycle>)
    requires QuietRun(f, run)
    ensures Successes(f, run) <= 4 - Index(Current(f))
    ensures After(f, run).tier == "dead" <==> Successes(f, run) == 4 - Index(Current(f))
  {
    QuietDescent(f, run);
  }

  lemma QuietVisit(f: Feed, now: int, c: Config, o: Outcome)
    requires GoodConfig(c) && Known(Current(f)) && (o.Fetched? ==> !o.hasNew)
    ensures var r := Visited(f, now, c, o); Known(Current(r)) && Index(Current(r)) >= Index(Current(f))
  {
    hide FetchUpdates, RowAfter;
    if Due(f, now) {
      VisitedRow(f, now, c, o);
    }
  }

  /** No quiet run lifts a feed, whatever the thresholds. */
  lemma {:induction false} QuietNeverLifts(f: Feed, run: seq<Cycle>)
    requires GoodRun(run) && Known(Current(f))
    requires forall i | 0 <= i < |run| :: run[i].outcome.Fetched? ==> !run[i].outcome.hasNew
    ensures Known(Current(After(f, run))) && Index(Current(After(f, run))) >= Index(Current(f))
  {
    hide Visited, Index, Known, Current;
    if run != [] {
      var n := |run| - 1;
      QuietNeverLifts(f, run[..n]);
      QuietVisit(After(f, run[..n]), run[n].now, run[n].config, run[n].outcome);
    }
  }

  /** Under one configuration a feed's interval is its tier's from the first change of tier on. */
  lemma {:induction false} IntervalFollowsTier(f: Feed, run: seq<Cycle>, c: Config)
    requires GoodRun(run) && forall i | 0 <= i < |run| :: run[i].config == c
    ensures var r := After(f, run);
      || (r.tier == f.tier && r.intervalMins == f.intervalMins)
      || (r.tier in c.intervals && r.intervalMins == c.intervals[r.tier])
  {
    if run != [] {
      var n := |run| - 1;
      IntervalFollowsTier(f, run[..n], c);
      var r, last := After(f, run[..n]), run[n];
      if Due(r, last.now) {
        VisitedRow(r, last.now, last.config, last.outcome);
      }
    }
  }

  /** A feed with an unknown tier name is stuck once its quiet reaches a threshold: the look-up
      raises, nothing is recorded, and the feed stays due. */
  lemma UnknownTierSticks(f: Feed, now: int, c: Config, published: Option<int>)
    requires GoodConfig(c) && Due(f, now) && !Known(Current(f)) && f.lastArticle.Some?
    requires exists i | 0 <= i < 4 :: DaysQuiet(f.lastArticle.value, now) >= c.thresholds[i]
    ensures Visited(f, now, c, Fetched(false, published)) == f
  {
    VisitedRow(f, now, c, Fetched(false, published));
  }
}

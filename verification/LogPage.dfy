/** Reading and trimming the logs: the page merged from Lance and the cached entries, and the
    deletion of all but the newest entries. */
module LogPaging {
  import opened Wrappers

  datatype LogEntry = LogEntry(id: string, timestamp: Option<int>, level: string, category: string, service: string)

  // ── Newest first ─────────────────────────────────────────────────────────

  /** At least as new; an entry without a timestamp comes after all others. */
  predicate AtLeast(a: Option<int>, b: Option<int>) {
    b.None? || (a.Some? && a.value >= b.value)
  }

  ghost predicate NewestFirst(s: seq<LogEntry>) {
    forall i, j | 0 <= i < j < |s| :: AtLeast(s[i].timestamp, s[j].timestamp)
  }

  /** Some order of the entries with the newest first; ties may fall either way. */
  ghost predicate SortOf(sorted: seq<LogEntry>, s: seq<LogEntry>) {
    multiset(sorted) == multiset(s) && NewestFirst(sorted)
  }

  /** The library sort: one such order. */
  function Sorted(s: seq<LogEntry>): (r: seq<LogEntry>)
    ensures SortOf(r, s)
  {
    if s == [] then []
    else
      assert s == s[..|s| - 1] + [s[|s| - 1]];
      Inserted(Sorted(s[..|s| - 1]), s[|s| - 1])
  }

  function Inserted(s: seq<LogEntry>, e: LogEntry): (r: seq<LogEntry>)
    requires NewestFirst(s)
    ensures NewestFirst(r) && multiset(r) == multiset(s) + multiset{e}
  {
    if s == [] || AtLeast(s[|s| - 1].timestamp, e.timestamp) then s + [e]
    else
      var rest, last := s[..|s| - 1], s[|s| - 1];
      assert s == rest + [last];
      var r := Inserted(rest, e);
      AboveLast(r, rest + [e], last.timestamp);
      r + [last]
  }

  /** The same entries in another order are still all at least as new. */
  lemma AboveLast(r: seq<LogEntry>, s: seq<LogEntry>, low: Option<int>)
    requires multiset(r) == multiset(s)
    requires forall i | 0 <= i < |s| :: AtLeast(s[i].timestamp, low)
    ensures forall i | 0 <= i < |r| :: AtLeast(r[i].timestamp, low)
  {
    forall i | 0 <= i < |r| ensures AtLeast(r[i].timestamp, low) {
      assert r[i] in multiset(r);
      assert r[i] in s;
    }
  }

  function Page<T>(s: seq<T>, offset: nat, limit: nat): seq<T> {
    if offset >= |s| then [] else s[offset..if offset + limit > |s| then |s| else offset + limit]
  }

  function Timestamps(s: seq<LogEntry>): (r: seq<Option<int>>)
    ensures |r| == |s|
  {
    seq(|s|, i requires 0 <= i < |s| => s[i].timestamp)
  }

  // ── Counting ─────────────────────────────────────────────────────────────

  function Filter(s: seq<LogEntry>, p: LogEntry -> bool): seq<LogEntry> {
    if s == [] then []
    else Filter(s[..|s| - 1], p) + if p(s[|s| - 1]) then [s[|s| - 1]] else []
  }

  lemma {:induction false} FilterConcat(s: seq<LogEntry>, t: seq<LogEntry>, p: LogEntry -> bool)
    ensures Filter(s + t, p) == Filter(s, p) + Filter(t, p)
  {
    if t == [] {
      assert s + t == s;
    } else {
      FilterConcat(s, t[..|t| - 1], p);
      assert (s + t)[..|s + t| - 1] == s + t[..|t| - 1];
    }
  }

  lemma {:induction false} FilterCounts(s: seq<LogEntry>, p: LogEntry -> bool, x: LogEntry)
    ensures multiset(Filter(s, p))[x] == if p(x) then multiset(s)[x] else 0
  {
    if s != [] {
      FilterCounts(s[..|s| - 1], p, x);
      assert s == s[..|s| - 1] + [s[|s| - 1]];
    }
  }

  /** Filtering keeps the same entries whatever their order. */
  lemma FilterPermuted(s: seq<LogEntry>, t: seq<LogEntry>, p: LogEntry -> bool)
    requires multiset(s) == multiset(t)
    ensures multiset(Filter(s, p)) == multiset(Filter(t, p)) && |Filter(s, p)| == |Filter(t, p)|
  {
    var u, v := Filter(s, p), Filter(t, p);
    forall x ensures multiset(u)[x] == multiset(v)[x] {
      FilterCounts(s, p, x);
      FilterCounts(t, p, x);
    }
    assert multiset(u) == multiset(v);
    SameLength(u, v);
  }

  lemma SameLength(s: seq<LogEntry>, t: seq<LogEntry>)
    requires multiset(s) == multiset(t)
    ensures |s| == |t|
  {
    assert |multiset(s)| == |multiset(t)|;
  }

  lemma {:induction false} FilterNone(s: seq<LogEntry>, p: LogEntry -> bool)
    requires forall i | 0 <= i < |s| :: !p(s[i])
    ensures Filter(s, p) == []
  {
    if s != [] {
      FilterNone(s[..|s| - 1], p);
    }
  }

  lemma {:induction false} FilterAll(s: seq<LogEntry>, p: LogEntry -> bool)
    requires forall i | 0 <= i < |s| :: p(s[i])
    ensures Filter(s, p) == s
  {
    if s != [] {
      FilterAll(s[..|s| - 1], p);
      assert s == s[..|s| - 1] + [s[|s| - 1]];
    }
  }

  function Newer(x: Option<int>): LogEntry -> bool {
    (e: LogEntry) => AtLeast(e.timestamp, x)
  }

  /** How many entries are at least as new as `x`. */
  function Rank(s: seq<LogEntry>, x: Option<int>): nat {
    |Filter(s, Newer(x))|
  }

  /** In a sorted sequence the rank says which positions are at least as new. */
  lemma {:induction false} RankDecides(s: seq<LogEntry>, x: Option<int>, k: nat)
    requires NewestFirst(s) && k < |s|
    ensures AtLeast(s[k].timestamp, x) <==> Rank(s, x) > k
  {
    hide Filter;
    if AtLeast(s[k].timestamp, x) {
      FilterAll(s[..k + 1], Newer(x));
      assert s[..k + 1] + s[k + 1..] == s;
      FilterConcat(s[..k + 1], s[k + 1..], Newer(x));
    } else {
      FilterNone(s[k..], Newer(x));
      assert s[..k] + s[k..] == s;
      FilterConcat(s[..k], s[k..], Newer(x));
      FilterShort(s[..k], Newer(x));
    }
  }

  lemma {:induction false} FilterShort(s: seq<LogEntry>, p: LogEntry -> bool)
    ensures |Filter(s, p)| <= |s|
  {
    if s != [] {
      FilterShort(s[..|s| - 1], p);
    }
  }

  /** Cutting a sorted sequence cuts its ranks. */
  lemma RankOfPrefix(s: seq<LogEntry>, n: nat, x: Option<int>)
    requires NewestFirst(s) && n <= |s|
    ensures Rank(s[..n], x) == if Rank(s, x) < n then Rank(s, x) else n
  {
    assert s[..n] + s[n..] == s;
    FilterConcat(s[..n], s[n..], Newer(x));
    FilterShort(s[..n], Newer(x));
    if Rank(s, x) < n {
      RankDecides(s, x, Rank(s, x));
      FilterNone(s[Rank(s, x)..], Newer(x));
      FilterNone(s[n..], Newer(x));
    } else if n > 0 {
      RankDecides(s, x, n - 1);
      FilterAll(s[..n], Newer(x));
    }
  }

  // ── The merged page ──────────────────────────────────────────────────────

  /** Up to position `n`, the newest `n` of Lance with all cached entries rank like the union. */
  lemma TopRanks(lance: seq<LogEntry>, cached: seq<LogEntry>, sorted: seq<LogEntry>, n: nat, x: Option<int>, k: nat)
    requires SortOf(sorted, lance) && k < n
    ensures Rank(Page(sorted, 0, n) + cached, x) > k <==> Rank(lance + cached, x) > k
  {
    var top := Page(sorted, 0, n);
    FilterConcat(top, cached, Newer(x));
    FilterConcat(lance, cached, Newer(x));
    FilterPermuted(sorted, lance, Newer(x));
    if n < |sorted| {
      assert top == sorted[..n];
      RankOfPrefix(sorted, n, x);
    } else {
      assert top == sorted;
    }
  }

  lemma SamePositionAt(lance: seq<LogEntry>, cached: seq<LogEntry>, sorted: seq<LogEntry>, n: nat,
                       merged: seq<LogEntry>, full: seq<LogEntry>, k: nat, x: Option<int>)
    requires SortOf(sorted, lance) && SortOf(merged, Page(sorted, 0, n) + cached) && SortOf(full, lance + cached)
    requires k < n && k < |merged| && k < |full|
    ensures AtLeast(merged[k].timestamp, x) <==> AtLeast(full[k].timestamp, x)
  {
    RankDecides(merged, x, k);
    RankDecides(full, x, k);
    FilterPermuted(merged, Page(sorted, 0, n) + cached, Newer(x));
    FilterPermuted(full, lance + cached, Newer(x));
    TopRanks(lance, cached, sorted, n, x, k);
  }

  lemma SamePosition(lance: seq<LogEntry>, cached: seq<LogEntry>, sorted: seq<LogEntry>, n: nat,
                     merged: seq<LogEntry>, full: seq<LogEntry>, k: nat)
    requires SortOf(sorted, lance) && SortOf(merged, Page(sorted, 0, n) + cached) && SortOf(full, lance + cached)
    requires k < n && k < |merged| && k < |full|
    ensures merged[k].timestamp == full[k].timestamp
  {
    SamePositionAt(lance, cached, sorted, n, merged, full, k, merged[k].timestamp);
    SamePositionAt(lance, cached, sorted, n, merged, full, k, full[k].timestamp);
  }

  /** Sorting Lance's newest `offset + limit` entries together with all cached ones and cutting
      out the page gives the timestamps of the page of the whole sorted union, however ties fall;
      with distinct timestamps it gives the same entries. */
  lemma MergedPageExact(lance: seq<LogEntry>, cached: seq<LogEntry>, sorted: seq<LogEntry>,
                        merged: seq<LogEntry>, full: seq<LogEntry>, offset: nat, limit: nat)
    requires SortOf(sorted, lance)
    requires SortOf(merged, Page(sorted, 0, offset + limit) + cached)
    requires SortOf(full, lance + cached)
    ensures Timestamps(Page(merged, offset, limit)) == Timestamps(Page(full, offset, limit))
    ensures DistinctTimestamps(lance + cached) ==> Page(merged, offset, limit) == Page(full, offset, limit)
  {
    hide Page, SortOf;
    PagesAgree(lance, cached, sorted, merged, full, offset, limit);
    var p, q := Page(merged, offset, limit), Page(full, offset, limit);
    assert forall k | 0 <= k < |p| :: Timestamps(p)[k] == p[k].timestamp;
    if DistinctTimestamps(lance + cached) {
      forall k | 0 <= k < |p| ensures p[k] == q[k] {
        PageEntry(merged, offset, limit, k);
        PageEntry(full, offset, limit, k);
        SameEntry(lance, cached, sorted, offset + limit, merged, full, p[k], q[k]);
      }
    }
  }

  lemma PageEntry(s: seq<LogEntry>, offset: nat, limit: nat, k: nat)
    requires k < |Page(s, offset, limit)|
    ensures Page(s, offset, limit)[k] in s
  {
  }

  lemma SameEntry(lance: seq<LogEntry>, cached: seq<LogEntry>, sorted: seq<LogEntry>, n: nat,
                  merged: seq<LogEntry>, full: seq<LogEntry>, a: LogEntry, b: LogEntry)
    requires SortOf(sorted, lance) && SortOf(merged, Page(sorted, 0, n) + cached) && SortOf(full, lance + cached)
    requires DistinctTimestamps(lance + cached) && a in merged && b in full && a.timestamp == b.timestamp
    ensures a == b
  {
    MergedFromUnion(lance, cached, sorted, n, merged, a);
    assert b in multiset(full);
    assert b in lance + cached;
  }

  lemma PagesAgree(lance: seq<LogEntry>, cached: seq<LogEntry>, sorted: seq<LogEntry>,
                   merged: seq<LogEntry>, full: seq<LogEntry>, offset: nat, limit: nat)
    requires SortOf(sorted, lance)
    requires SortOf(merged, Page(sorted, 0, offset + limit) + cached)
    requires SortOf(full, lance + cached)
    ensures var p, q := Page(merged, offset, limit), Page(full, offset, limit);
      |p| == |q| && forall k | 0 <= k < |p| :: p[k].timestamp == q[k].timestamp
  {
    hide NewestFirst;
    var n := offset + limit;
    SameLength(sorted, lance);
    SameLength(merged, Page(sorted, 0, n) + cached);
    SameLength(full, lance + cached);
    var p, q := Page(merged, offset, limit), Page(full, offset, limit);
    assert |p| == |q|;
    forall k | 0 <= k < |p| ensures p[k].timestamp == q[k].timestamp {
      SamePosition(lance, cached, sorted, n, merged, full, offset + k);
    }
  }

  ghost predicate DistinctTimestamps(s: seq<LogEntry>) {
    forall a, b | a in s && b in s && a.timestamp == b.timestamp :: a == b
  }

  lemma MergedFromUnion(lance: seq<LogEntry>, cached: seq<LogEntry>, sorted: seq<LogEntry>, n: nat,
                        merged: seq<LogEntry>, e: LogEntry)
    requires SortOf(sorted, lance) && SortOf(merged, Page(sorted, 0, n) + cached) && e in merged
    ensures e in lance + cached
  {
    assert e in multiset(merged);
    assert e in Page(sorted, 0, n) + cached;
    if e !in cached {
      assert e in sorted;
      assert e in multiset(sorted);
      assert e in lance;
    }
  }

  // ── The log query ────────────────────────────────────────────────────────

  /** An empty level, category or service does not restrict. */
  datatype Query = Query(level: string, category: string, service: string,
                         start: Option<int>, end: Option<int>, limit: int, offset: nat)

  predicate Wanted(q: Query, e: LogEntry) {
    && (q.level != "" ==> e.level == q.level)
    && (q.category != "" ==> e.category == q.category)
    && (q.service != "" ==> e.service == q.service)
  }

  predicate InTime(q: Query, e: LogEntry) {
    && (q.start.Some? ==> e.timestamp.Some? && e.timestamp.value >= q.start.value)
    && (q.end.Some? ==> e.timestamp.Some? && e.timestamp.value <= q.end.value)
  }

  /** The rows of Lance that the query selects. */
  function FromLance(q: Query, lance: seq<LogEntry>): seq<LogEntry> {
    Filter(lance, (e: LogEntry) => Wanted(q, e) && InTime(q, e))
  }

  /** The cached rows that the query selects: the time bounds are not applied to them. */
  function FromCache(q: Query, cached: seq<LogEntry>): seq<LogEntry> {
    Filter(cached, (e: LogEntry) => Wanted(q, e))
  }

  function Limit(q: Query): nat {
    if q.limit <= 0 then 100 else q.limit
  }

  /** The page is right for the selected rows, whichever way ties fall in the sort. */
  ghost predicate Answers(page: seq<LogEntry>, q: Query, rows: seq<LogEntry>) {
    forall full | SortOf(full, rows) ::
      && Timestamps(page) == Timestamps(Page(full, q.offset, Limit(q)))
      && (DistinctTimestamps(rows) ==> page == Page(full, q.offset, Limit(q)))
  }

  lemma MergedAnswers(q: Query, lance: seq<LogEntry>, cached: seq<LogEntry>, sorted: seq<LogEntry>, merged: seq<LogEntry>)
    requires SortOf(sorted, lance)
    requires SortOf(merged, Page(sorted, 0, q.offset + Limit(q)) + cached)
    ensures Answers(Page(merged, q.offset, Limit(q)), q, lance + cached)
  {
    hide Page, SortOf;
    forall full | SortOf(full, lance + cached)
      ensures Timestamps(Page(merged, q.offset, Limit(q))) == Timestamps(Page(full, q.offset, Limit(q)))
      ensures DistinctTimestamps(lance + cached) ==> Page(merged, q.offset, Limit(q)) == Page(full, q.offset, Limit(q))
    {
      MergedPageExact(lance, cached, sorted, merged, full, q.offset, Limit(q));
    }
  }

  lemma LanceAnswers(q: Query, lance: seq<LogEntry>)
    ensures Answers(Page(Sorted(lance), q.offset, Limit(q)), q, lance)
  {
    var top := Page(Sorted(lance), 0, q.offset + Limit(q));
    assert top + [] == top && lance + [] == lance;
    MergedAnswers(q, lance, [], Sorted(lance), top);
    assert Page(top, q.offset, Limit(q)) == Page(Sorted(lance), q.offset, Limit(q));
  }

  method MergePage(lanceEntries: seq<LogEntry>, cachedEntries: seq<LogEntry>, offset: nat, limit: nat)
    returns (page: seq<LogEntry>)
    ensures page == Page(Sorted(lanceEntries + cachedEntries), offset, limit)
  {
    var merged := Sorted(lanceEntries + cachedEntries);
    if offset >= |merged| {
      return [];
    }
    var end := offset + limit;
    if end > |merged| {
      end := |merged|;
    }
    return merged[offset..end];
  }

  /** How often the query selects an entry: as often as it is stored where its level, category and
      service are the ones asked for, except that of the rows of Lance only those inside the time
      bounds are selected. */
  function Selected(q: Query, lance: seq<LogEntry>, cached: seq<LogEntry>, e: LogEntry): nat {
    if (q.level != "" && e.level != q.level) || (q.category != "" && e.category != q.category)
       || (q.service != "" && e.service != q.service) then 0
    else
      multiset(cached)[e] +
      if (q.start.Some? && (e.timestamp.None? || e.timestamp.value < q.start.value))
         || (q.end.Some? && (e.timestamp.None? || e.timestamp.value > q.end.value)) then 0
      else multiset(lance)[e]
  }

  /** Newest first, and entries without a timestamp last. */
  ghost predicate Descending(rows: seq<LogEntry>) {
    forall i, j | 0 <= i < j < |rows| && rows[j].timestamp.Some? ::
      rows[i].timestamp.Some? && rows[i].timestamp.value >= rows[j].timestamp.value
  }

  /** The part of the rows from the offset on, at most the limit, which is one hundred by default. */
  ghost predicate CutFrom(page: seq<LogEntry>, q: Query, rows: seq<LogEntry>) {
    var limit := if q.limit <= 0 then 100 else q.limit;
    var left := if q.offset < |rows| then |rows| - q.offset else 0;
    && |page| == (if left < limit then left else limit)
    && (forall k | 0 <= k < |page| :: page[k] == rows[q.offset + k])
  }

  /** The rows are the selected entries, each as often as it is selected, from the newest to the
      oldest; the page is cut from them and the total counts them. */
  ghost predicate ResultOf(q: Query, lance: seq<LogEntry>, cached: seq<LogEntry>, page: seq<LogEntry>, total: nat,
                           rows: seq<LogEntry>) {
    && (forall e :: multiset(rows)[e] == Selected(q, lance, cached, e))
    && Descending(rows) && |rows| == total && CutFrom(page, q, rows)
  }

  lemma SelectedRows(q: Query, lance: seq<LogEntry>, cached: seq<LogEntry>, rows: seq<LogEntry>)
    requires multiset(rows) == multiset(FromLance(q, lance) + FromCache(q, cached))
    ensures forall e :: multiset(rows)[e] == Selected(q, lance, cached, e)
  {
    forall e ensures multiset(rows)[e] == Selected(q, lance, cached, e) {
      FilterCounts(lance, (e: LogEntry) => Wanted(q, e) && InTime(q, e), e);
      FilterCounts(cached, (e: LogEntry) => Wanted(q, e), e);
      assert multiset(rows)[e] == multiset(FromLance(q, lance))[e] + multiset(FromCache(q, cached))[e];
    }
  }

  /** The merged rows with the rest of Lance after them, sorted as the page has them. */
  lemma SomeSort(lance: seq<LogEntry>, cached: seq<LogEntry>, sorted: seq<LogEntry>, n: nat, merged: seq<LogEntry>)
    returns (full: seq<LogEntry>)
    requires SortOf(sorted, lance) && SortOf(merged, Page(sorted, 0, n) + cached)
    ensures SortOf(full, lance + cached)
    ensures if |merged| < n then full == merged else |full| >= n && full[..n] == merged[..n]
  {
    hide Sorted, NewestFirst;
    var top := Page(sorted, 0, n);
    SameLength(merged, top + cached);
    if |sorted| <= n {
      assert top == sorted;
      full := merged;
    } else {
      assert top == sorted[..n];
      var rest := Sorted(merged[n..] + sorted[n..]);
      full := merged[..n] + rest;
      TopAbove(cached, sorted, n, merged);
      RestBelow(merged, sorted, n, rest);
      RestCounted(lance, cached, sorted, n, merged, rest);
    }
  }

  lemma RestCounted(lance: seq<LogEntry>, cached: seq<LogEntry>, sorted: seq<LogEntry>, n: nat,
                    merged: seq<LogEntry>, rest: seq<LogEntry>)
    requires n <= |sorted| && n <= |merged| && multiset(sorted) == multiset(lance)
    requires multiset(merged) == multiset(sorted[..n] + cached) && multiset(rest) == multiset(merged[n..] + sorted[n..])
    ensures multiset(merged[..n] + rest) == multiset(lance + cached)
  {
    assert sorted == sorted[..n] + sorted[n..] && merged == merged[..n] + merged[n..];
    forall e ensures multiset(merged[..n] + rest)[e] == multiset(lance + cached)[e] {
      assert multiset(rest)[e] == multiset(merged[n..])[e] + multiset(sorted[n..])[e];
      assert multiset(merged)[e] == multiset(merged[..n])[e] + multiset(merged[n..])[e];
      assert multiset(sorted)[e] == multiset(sorted[..n])[e] + multiset(sorted[n..])[e];
      assert multiset(merged)[e] == multiset(sorted[..n])[e] + multiset(cached)[e];
    }
  }

  lemma RestBelow(merged: seq<LogEntry>, sorted: seq<LogEntry>, n: nat, rest: seq<LogEntry>)
    requires NewestFirst(merged) && n <= |merged| && n < |sorted| && SortOf(rest, merged[n..] + sorted[n..])
    requires forall i, e | 0 <= i < n && e in sorted[n..] :: AtLeast(merged[i].timestamp, e.timestamp)
    ensures NewestFirst(merged[..n] + rest)
  {
    forall i, j | 0 <= i < n && 0 <= j < |rest| ensures AtLeast(merged[i].timestamp, rest[j].timestamp) {
      assert rest[j] in multiset(rest);
      assert rest[j] in merged[n..] + sorted[n..];
    }
  }

  lemma TopAbove(cached: seq<LogEntry>, sorted: seq<LogEntry>, n: nat, merged: seq<LogEntry>)
    requires NewestFirst(sorted) && n < |sorted| && SortOf(merged, sorted[..n] + cached) && n <= |merged|
    ensures forall i, e | 0 <= i < n && e in sorted[n..] :: AtLeast(merged[i].timestamp, e.timestamp)
  {
    var x := sorted[n].timestamp;
    FilterAll(sorted[..n], Newer(x));
    FilterConcat(sorted[..n], cached, Newer(x));
    FilterPermuted(merged, sorted[..n] + cached, Newer(x));
    forall i | 0 <= i < n ensures AtLeast(merged[i].timestamp, x) {
      RankDecides(merged, x, i);
    }
  }

  lemma PageCut(q: Query, merged: seq<LogEntry>, full: seq<LogEntry>)
    requires if |merged| < q.offset + Limit(q) then full == merged
             else |full| >= q.offset + Limit(q) && full[..q.offset + Limit(q)] == merged[..q.offset + Limit(q)]
    ensures CutFrom(Page(merged, q.offset, Limit(q)), q, full)
  {
    var n := q.offset + Limit(q);
    if |merged| >= n {
      forall k | 0 <= k < n ensures full[k] == merged[k] {
        assert full[..n][k] == merged[..n][k];
      }
    }
  }

  /** The page is cut from all the selected rows in some order from the newest to the oldest. */
  ghost predicate IsResult(q: Query, lance: seq<LogEntry>, cached: seq<LogEntry>, page: seq<LogEntry>, total: nat) {
    exists rows :: ResultOf(q, lance, cached, page, total, rows)
  }

  /** Whichever way ties fall in the two sorts, the page cut from the merged rows is such a page. */
  lemma MergedResult(q: Query, lance: seq<LogEntry>, cached: seq<LogEntry>, sorted: seq<LogEntry>, merged: seq<LogEntry>)
    requires SortOf(sorted, FromLance(q, lance))
    requires SortOf(merged, Page(sorted, 0, q.offset + Limit(q)) + FromCache(q, cached))
    ensures var page, total := Page(merged, q.offset, Limit(q)), |FromLance(q, lance)| + |FromCache(q, cached)|;
      IsResult(q, lance, cached, page, total)
  {
    hide FromLance, FromCache, CutFrom, Selected, Page;
    var full := SomeSort(FromLance(q, lance), FromCache(q, cached), sorted, q.offset + Limit(q), merged);
    SelectedRows(q, lance, cached, full);
    PageCut(q, merged, full);
    SameLength(full, FromLance(q, lance) + FromCache(q, cached));
    var page, total := Page(merged, q.offset, Limit(q)), |FromLance(q, lance)| + |FromCache(q, cached)|;
    assert ResultOf(q, lance, cached, page, total, full);
  }

  lemma LanceResult(q: Query, lance: seq<LogEntry>, cached: seq<LogEntry>)
    requires FromCache(q, cached) == []
    ensures var page, total := Page(Sorted(FromLance(q, lance)), q.offset, Limit(q)), |FromLance(q, lance)|;
      IsResult(q, lance, cached, page, total)
  {
    hide FromLance, FromCache, CutFrom, Selected, Page, Sorted;
    var full := Sorted(FromLance(q, lance));
    assert FromLance(q, lance) + FromCache(q, cached) == FromLance(q, lance);
    SelectedRows(q, lance, cached, full);
    if |full| >= q.offset + Limit(q) {
      assert full[..q.offset + Limit(q)] == full[..q.offset + Limit(q)];
    }
    PageCut(q, full, full);
    SameLength(full, FromLance(q, lance));
    var page, total := Page(full, q.offset, Limit(q)), |FromLance(q, lance)|;
    assert ResultOf(q, lance, cached, page, total, full);
  }

  /** Every entry of a page has the level, category and service asked for and lies inside the time
      bounds unless it is cached; and when everything fits on the first page, it has each such
      entry as often as it is stored. */
  lemma PageShows(q: Query, lance: seq<LogEntry>, cached: seq<LogEntry>, page: seq<LogEntry>, total: nat)
    requires IsResult(q, lance, cached, page, total)
    ensures forall e | e in page ::
      && (q.level != "" ==> e.level == q.level) && (q.category != "" ==> e.category == q.category)
      && (q.service != "" ==> e.service == q.service)
      && (e !in cached ==>
            && e in lance
            && (q.start.Some? ==> e.timestamp.Some? && e.timestamp.value >= q.start.value)
            && (q.end.Some? ==> e.timestamp.Some? && e.timestamp.value <= q.end.value))
    ensures q.offset == 0 && (total <= q.limit || (q.limit <= 0 && total <= 100)) ==>
      |page| == total && forall e :: multiset(page)[e] == Selected(q, lance, cached, e)
  {
    var rows :| ResultOf(q, lance, cached, page, total, rows);
    forall e | e in page ensures Selected(q, lance, cached, e) > 0 {
      var k :| 0 <= k < |page| && page[k] == e;
      assert rows[q.offset + k] == e && e in multiset(rows);
    }
    forall e ensures e in cached <==> multiset(cached)[e] > 0 {
      assert e in cached <==> e in multiset(cached);
    }
    forall e ensures e in lance <==> multiset(lance)[e] > 0 {
      assert e in lance <==> e in multiset(lance);
    }
    if q.offset == 0 && (total <= q.limit || (q.limit <= 0 && total <= 100)) {
      assert page == rows;
    }
  }

  class LogTables {
    var lance: seq<LogEntry>
    var cached: seq<LogEntry>

    constructor (lance: seq<LogEntry>, cached: seq<LogEntry>)
      ensures this.lance == lance && this.cached == cached
    {
      this.lance := lance;
      this.cached := cached;
    }

    /** The page has the timestamps of the page of all selected rows, sorted; with distinct
        timestamps it is that page. */
    method GetLogs(q: Query) returns (page: seq<LogEntry>, total: nat)
      ensures total == |FromLance(q, lance)| + |FromCache(q, cached)|
      ensures Answers(page, q, FromLance(q, lance) + FromCache(q, cached))
      ensures IsResult(q, lance, cached, page, total)
      ensures forall e | e in page ::
        && (q.level != "" ==> e.level == q.level) && (q.category != "" ==> e.category == q.category)
        && (q.service != "" ==> e.service == q.service)
        && (e !in cached ==>
              && e in lance
              && (q.start.Some? ==> e.timestamp.Some? && e.timestamp.value >= q.start.value)
              && (q.end.Some? ==> e.timestamp.Some? && e.timestamp.value <= q.end.value))
    {
      hide FromLance, FromCache, Filter, Answers, Timestamps, Sorted, IsResult;
      var limit := q.limit;
      if limit <= 0 {
        limit := 100;
      }
      var cachedEntries := FromCache(q, cached);
      var selected := FromLance(q, lance);
      total := |selected| + |cachedEntries|;
      if |cachedEntries| == 0 {
        page := Page(Sorted(selected), q.offset, limit);
        LanceAnswers(q, selected);
        LanceResult(q, lance, cached);
        PageShows(q, lance, cached, page, total);
        assert selected + cachedEntries == selected;
        return;
      }
      var top := Page(Sorted(selected), 0, q.offset + limit);
      MergedAnswers(q, selected, cachedEntries, Sorted(selected), Sorted(top + cachedEntries));
      page := MergePage(top, cachedEntries, q.offset, limit);
      MergedResult(q, lance, cached, Sorted(selected), Sorted(top + cachedEntries));
      PageShows(q, lance, cached, page, total);
    }

    /** Deletes what is older than the `maxEntries`-th newest entry. */
    method TrimLogs(maxEntries: int) returns (ok: bool)
      modifies `lance
      ensures ok == (maxEntries <= 0 || |old(lance)| <= maxEntries || Cutoff(old(lance), maxEntries).Some?)
      ensures lance == if maxEntries <= 0 || |old(lance)| <= maxEntries || !ok then old(lance)
                       else Trimmed(old(lance), Cutoff(old(lance), maxEntries).value)
    {
      if maxEntries <= 0 {
        return true;
      }
      if |lance| <= maxEntries {
        return true;
      }
      SameLength(Sorted(lance), lance);
      var cutoff := Sorted(lance)[maxEntries - 1].timestamp;
      if cutoff.None? {
        return false;
      }
      lance := Trimmed(lance, cutoff.value);
      return true;
    }

    /** The fetcher's version; it reports how many entries lie beyond the limit, and raises when
        the `maxEntries`-th newest entry has no timestamp to delete by. */
    method TrimFetcherLogs(maxEntries: int) returns (raises: bool, reported: nat)
      modifies `lance
      ensures raises == (0 < maxEntries < |old(lance)| && Cutoff(old(lance), maxEntries).None?)
      ensures lance == if maxEntries <= 0 || |old(lance)| <= maxEntries || raises then old(lance)
                       else Trimmed(old(lance), Cutoff(old(lance), maxEntries).value)
      ensures !raises ==> reported == if maxEntries <= 0 || |old(lance)| <= maxEntries then 0 else |old(lance)| - maxEntries
    {
      if maxEntries <= 0 || |lance| <= maxEntries {
        return false, 0;
      }
      SameLength(Sorted(lance), lance);
      var sorted := Sorted(lance);
      var toDelete := sorted[maxEntries..];
      var oldestKeep := sorted[maxEntries - 1].timestamp;
      if oldestKeep.None? {
        return true, 0;
      }
      lance := Trimmed(lance, oldestKeep.value);
      return false, |toDelete|;
    }
  }

  /** The count is exact precisely when no cached row of the query lies outside its time bounds. */
  lemma TotalExact(q: Query, lance: seq<LogEntry>, cached: seq<LogEntry>)
    ensures |FromLance(q, lance)| + |FromCache(q, cached)| == |FromLance(q, lance + cached)|
            <==> forall e | e in cached && Wanted(q, e) :: InTime(q, e)
  {
    FilterConcat(lance, cached, (e: LogEntry) => Wanted(q, e) && InTime(q, e));
    CachedInTime(q, cached);
  }

  lemma {:induction false} CachedInTime(q: Query, cached: seq<LogEntry>)
    ensures |FromLance(q, cached)| <= |FromCache(q, cached)|
    ensures |FromLance(q, cached)| == |FromCache(q, cached)| <==> forall e | e in cached && Wanted(q, e) :: InTime(q, e)
    ensures |FromLance(q, cached)| == |FromCache(q, cached)| ==> FromLance(q, cached) == FromCache(q, cached)
  {
    if cached != [] {
      CachedInTime(q, cached[..|cached| - 1]);
      assert cached == cached[..|cached| - 1] + [cached[|cached| - 1]];
    }
  }

  /** Without time bounds, and with bounds that every wanted cached row meets, the query answers
      for the union of Lance and cache as if it were one table. */
  lemma PageOfUnion(q: Query, lance: seq<LogEntry>, cached: seq<LogEntry>)
    requires forall e | e in cached && Wanted(q, e) :: InTime(q, e)
    ensures FromLance(q, lance) + FromCache(q, cached) == FromLance(q, lance + cached)
  {
    FilterConcat(lance, cached, (e: LogEntry) => Wanted(q, e) && InTime(q, e));
    CachedInTime(q, cached);
  }

  // ── Trimming ─────────────────────────────────────────────────────────────

  /** The timestamp of the `maxEntries`-th newest entry. */
  function Cutoff(rows: seq<LogEntry>, maxEntries: int): Option<int> {
    SameLength(Sorted(rows), rows);
    if 0 < maxEntries <= |rows| then Sorted(rows)[maxEntries - 1].timestamp else None
  }

  predicate Older(e: LogEntry, cutoff: int) {
    e.timestamp.Some? && e.timestamp.value < cutoff
  }

  function Trimmed(rows: seq<LogEntry>, cutoff: int): seq<LogEntry> {
    Filter(rows, (e: LogEntry) => !Older(e, cutoff))
  }

  lemma {:induction false} InFilter(s: seq<LogEntry>, p: LogEntry -> bool, x: LogEntry)
    ensures x in Filter(s, p) <==> x in s && p(x)
  {
    if s != [] {
      InFilter(s[..|s| - 1], p, x);
      assert s == s[..|s| - 1] + [s[|s| - 1]];
    }
  }

  /** Trimming keeps every entry that is not older than the `maxEntries`-th newest and deletes the
      others, so no kept entry is older than a deleted one; it keeps at least `maxEntries`, and
      exactly that many when and only when everything beyond them is older than the cutoff; so
      only then is the number the fetcher reports, all entries beyond the limit, the number deleted. */
  lemma TrimKeepsNewest(rows: seq<LogEntry>, maxEntries: nat, sorted: seq<LogEntry>)
    requires 0 < maxEntries < |rows| && Cutoff(rows, maxEntries).Some? && SortOf(sorted, rows)
    ensures |sorted| == |rows| && sorted[maxEntries - 1].timestamp == Cutoff(rows, maxEntries)
    ensures var cutoff := Cutoff(rows, maxEntries).value;
            var kept := Trimmed(rows, cutoff);
            && (forall e :: multiset(kept)[e] ==
                  if e.timestamp.Some? && e.timestamp.value < cutoff then 0 else multiset(rows)[e])
            && (forall e, d | e in kept && d in rows && d !in kept && e.timestamp.Some? :: e.timestamp.value > d.timestamp.value)
            && |kept| >= maxEntries
            && (|kept| == maxEntries <==> forall i | maxEntries <= i < |sorted| :: Older(sorted[i], cutoff))
  {
    SameLength(sorted, rows);
    SameLength(Sorted(rows), rows);
    SortsAgree(sorted, Sorted(rows), maxEntries - 1);
    var cutoff := Cutoff(rows, maxEntries).value;
    forall e ensures multiset(Trimmed(rows, cutoff))[e] == if Older(e, cutoff) then 0 else multiset(rows)[e] {
      FilterCounts(rows, (e: LogEntry) => !Older(e, cutoff), e);
    }
    forall e ensures e in Trimmed(rows, cutoff) <==> e in rows && !Older(e, cutoff) {
      InFilter(rows, (e: LogEntry) => !Older(e, cutoff), e);
    }
    KeptCount(rows, maxEntries, sorted, cutoff);
  }

  lemma KeptCount(rows: seq<LogEntry>, n: nat, sorted: seq<LogEntry>, cutoff: int)
    requires SortOf(sorted, rows) && 0 < n < |sorted| && sorted[n - 1].timestamp == Some(cutoff)
    ensures |Trimmed(rows, cutoff)| >= n
    ensures |Trimmed(rows, cutoff)| == n <==> forall i | n <= i < |sorted| :: Older(sorted[i], cutoff)
  {
    var head, tail := sorted[..n], sorted[n..];
    KeptHead(head, cutoff);
    TrimmedParts(rows, sorted, n, cutoff);
    KeptTail(tail, cutoff);
    assert forall i | n <= i < |sorted| :: sorted[i] == tail[i - n];
  }

  lemma KeptHead(head: seq<LogEntry>, cutoff: int)
    requires NewestFirst(head) && head != [] && head[|head| - 1].timestamp == Some(cutoff)
    ensures Trimmed(head, cutoff) == head
  {
    FilterAll(head, (e: LogEntry) => !Older(e, cutoff));
  }

  lemma TrimmedParts(rows: seq<LogEntry>, sorted: seq<LogEntry>, n: nat, cutoff: int)
    requires multiset(sorted) == multiset(rows) && n <= |sorted|
    ensures |Trimmed(rows, cutoff)| == |Trimmed(sorted[..n], cutoff)| + |Trimmed(sorted[n..], cutoff)|
  {
    var p := (e: LogEntry) => !Older(e, cutoff);
    FilterPermuted(sorted, rows, p);
    assert sorted == sorted[..n] + sorted[n..];
    FilterConcat(sorted[..n], sorted[n..], p);
  }

  lemma KeptTail(tail: seq<LogEntry>, cutoff: int)
    ensures |Trimmed(tail, cutoff)| == 0 <==> forall i | 0 <= i < |tail| :: Older(tail[i], cutoff)
  {
    var p := (e: LogEntry) => !Older(e, cutoff);
    if forall i | 0 <= i < |tail| :: Older(tail[i], cutoff) {
      FilterNone(tail, p);
    } else {
      var i :| 0 <= i < |tail| && !Older(tail[i], cutoff);
      InFilter(tail, p, tail[i]);
    }
  }

  /** Two sorts of the same entries have the same timestamp at every position. */
  lemma SortsAgree(s: seq<LogEntry>, t: seq<LogEntry>, k: nat)
    requires NewestFirst(s) && NewestFirst(t) && multiset(s) == multiset(t) && k < |s| == |t|
    ensures s[k].timestamp == t[k].timestamp
  {
    SortsAgreeAt(s, t, k, s[k].timestamp);
    SortsAgreeAt(s, t, k, t[k].timestamp);
  }

  lemma SortsAgreeAt(s: seq<LogEntry>, t: seq<LogEntry>, k: nat, x: Option<int>)
    requires NewestFirst(s) && NewestFirst(t) && multiset(s) == multiset(t) && k < |s| == |t|
    ensures AtLeast(s[k].timestamp, x) <==> AtLeast(t[k].timestamp, x)
  {
    RankDecides(s, x, k);
    RankDecides(t, x, k);
    FilterPermuted(s, t, Newer(x));
  }
}

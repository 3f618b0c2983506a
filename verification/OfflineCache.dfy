/** The local cache file: the pending log, the cached copies used while Lance is away, and
    the replay that carries the log into Lance. */
module OfflineCaching {
  import opened Wrappers
  import opened LanceTables
  import opened LanceWriting
  import opened Writers
  import opened PendingLog

  /** One row of `pending_changes`. */
  datatype Pending = Pending(id: nat, op: Op)

  function Ops(rows: seq<Pending>): (ops: seq<Op>)
    ensures |ops| == |rows|
  {
    seq(|rows|, i requires 0 <= i < |rows| => rows[i].op)
  }

  predicate IsPutOf(row: Pending, key: string) {
    row.op.PutSetting? && row.op.key == key
  }

  /** The rows without the setting row of the key. */
  function WithoutPut(rows: seq<Pending>, key: string): seq<Pending> {
    if rows == [] then []
    else
      var rest, row := rows[..|rows| - 1], rows[|rows| - 1];
      WithoutPut(rest, key) + if IsPutOf(row, key) then [] else [row]
  }

  /** The log after one more write: articles and marks append, a setting replaces its earlier row. */
  function Logged(rows: seq<Pending>, row: Pending): seq<Pending> {
    (if row.op.PutSetting? then WithoutPut(rows, row.op.key) else rows) + [row]
  }

  ghost predicate RowsOrdered(rows: seq<Pending>, nextId: nat) {
    && (forall i, j | 0 <= i < j < |rows| :: rows[i].id < rows[j].id)
    && (forall i | 0 <= i < |rows| :: rows[i].id < nextId)
  }

  ghost predicate OnePutPerKey(rows: seq<Pending>) {
    forall i, j | 0 <= i < j < |rows| && rows[i].op.PutSetting? :: !IsPutOf(rows[j], rows[i].op.key)
  }

  lemma {:induction false} WithoutPutRows(rows: seq<Pending>, key: string)
    ensures forall r :: r in WithoutPut(rows, key) <==> r in rows && !IsPutOf(r, key)
  {
    if rows != [] {
      WithoutPutRows(rows[..|rows| - 1], key);
      assert rows == rows[..|rows| - 1] + [rows[|rows| - 1]];
    }
  }

  lemma {:induction false} WithoutPutOrdered(rows: seq<Pending>, key: string, nextId: nat)
    requires RowsOrdered(rows, nextId)
    ensures RowsOrdered(WithoutPut(rows, key), nextId)
  {
    if rows != [] {
      var rest, row := rows[..|rows| - 1], rows[|rows| - 1];
      assert RowsOrdered(rest, row.id);
      WithoutPutOrdered(rest, key, row.id);
    }
  }

  lemma {:induction false} WithoutPutOnePerKey(rows: seq<Pending>, key: string)
    requires OnePutPerKey(rows)
    ensures OnePutPerKey(WithoutPut(rows, key))
  {
    if rows != [] {
      var rest, row := rows[..|rows| - 1], rows[|rows| - 1];
      WithoutPutOnePerKey(rest, key);
      WithoutPutRows(rest, key);
      var kept := WithoutPut(rest, key);
      forall i | 0 <= i < |kept| && kept[i].op.PutSetting?
        ensures !IsPutOf(row, kept[i].op.key)
      {
        assert kept[i] in kept;
        assert kept[i] in rest;
      }
    }
  }

  lemma LoggedKeeps(rows: seq<Pending>, row: Pending, nextId: nat)
    requires RowsOrdered(rows, nextId) && OnePutPerKey(rows) && row.id == nextId
    ensures RowsOrdered(Logged(rows, row), nextId + 1) && OnePutPerKey(Logged(rows, row))
  {
    if row.op.PutSetting? {
      WithoutPutOrdered(rows, row.op.key, nextId);
      WithoutPutOnePerKey(rows, row.op.key);
      WithoutPutRows(rows, row.op.key);
      var kept := WithoutPut(rows, row.op.key);
      forall i | 0 <= i < |kept| ensures !IsPutOf(kept[i], row.op.key) {
        assert kept[i] in kept;
      }
    }
  }

  lemma {:induction false} WithoutPutMeans(rows: seq<Pending>, key: string, x: string)
    ensures LastRead(Ops(WithoutPut(rows, key)), x) == LastRead(Ops(rows), x)
    ensures LastStar(Ops(WithoutPut(rows, key)), x) == LastStar(Ops(rows), x)
    ensures MarkAllRead(x) in Ops(WithoutPut(rows, key)) <==> MarkAllRead(x) in Ops(rows)
    ensures x != key ==> LastPut(Ops(WithoutPut(rows, key)), x) == LastPut(Ops(rows), x)
  {
    hide LastRead, LastStar, LastPut;
    if rows != [] {
      var rest, row := rows[..|rows| - 1], rows[|rows| - 1];
      WithoutPutMeans(rest, key, x);
      assert Ops(rows) == Ops(rest) + [row.op];
      SnocMeans(Ops(rest), row.op, x);
      if IsPutOf(row, key) {
        assert WithoutPut(rows, key) == WithoutPut(rest, key);
      } else {
        assert Ops(WithoutPut(rows, key)) == Ops(WithoutPut(rest, key)) + [row.op];
        SnocMeans(Ops(WithoutPut(rest, key)), row.op, x);
      }
    }
  }

  lemma SnocMeans(log: seq<Op>, op: Op, x: string)
    ensures LastRead(log + [op], x) == if op.SetRead? && op.article == x then Some(op.read) else LastRead(log, x)
    ensures LastStar(log + [op], x) == if op.SetStar? && op.article == x then Some(op.star) else LastStar(log, x)
    ensures LastPut(log + [op], x) == if op.PutSetting? && op.key == x then Some(op.value) else LastPut(log, x)
    ensures MarkAllRead(x) in log + [op] <==> MarkAllRead(x) in log || op == MarkAllRead(x)
  {
    Snoc(log, op);
  }

  /** Replacing an earlier setting row does not change what the log replays to. */
  lemma LoggedReplays(t: Tables, rows: seq<Pending>, row: Pending)
    ensures Replayed(t, Ops(Logged(rows, row))) == Replayed(t, Ops(rows) + [row.op])
  {
    hide LastRead, LastStar, LastPut;
    var u, v := Replayed(t, Ops(Logged(rows, row))), Replayed(t, Ops(rows) + [row.op]);
    forall a | a in t.articles ensures u.articles[a] == v.articles[a] {
      LoggedMeans(rows, row, a);
      LoggedMeans(rows, row, t.articles[a].feed);
    }
    forall k | k in t.settings ensures u.settings[k] == v.settings[k] {
      LoggedMeans(rows, row, k);
    }
    assert u.articles == v.articles && u.settings == v.settings;
  }

  lemma LoggedMeans(rows: seq<Pending>, row: Pending, x: string)
    ensures LastRead(Ops(Logged(rows, row)), x) == LastRead(Ops(rows) + [row.op], x)
    ensures LastStar(Ops(Logged(rows, row)), x) == LastStar(Ops(rows) + [row.op], x)
    ensures MarkAllRead(x) in Ops(Logged(rows, row)) <==> MarkAllRead(x) in Ops(rows) + [row.op]
    ensures LastPut(Ops(Logged(rows, row)), x) == LastPut(Ops(rows) + [row.op], x)
  {
    hide LastRead, LastStar, LastPut, WithoutPut;
    var kept := if row.op.PutSetting? then WithoutPut(rows, row.op.key) else rows;
    assert Ops(Logged(rows, row)) == Ops(kept) + [row.op];
    SnocMeans(Ops(kept), row.op, x);
    SnocMeans(Ops(rows), row.op, x);
    if row.op.PutSetting? {
      WithoutPutMeans(rows, row.op.key, x);
    }
  }

  // ── Collapsing a log ─────────────────────────────────────────────────────

  /** The final explicit state of an article. */
  function Explicit(log: seq<Op>, a: string): Override {
    Override(LastRead(log, a), LastStar(log, a))
  }

  /** The setting rows of a log, in order. */
  function Puts(log: seq<Op>): (puts: seq<Op>)
    ensures forall op | op in puts :: op.PutSetting?
  {
    if log == [] then []
    else Puts(log[..|log| - 1]) + if log[|log| - 1].PutSetting? then [log[|log| - 1]] else []
  }

  lemma {:induction false} PutsDecide(log: seq<Op>, k: string)
    ensures LastPut(Puts(log), k) == LastPut(log, k)
  {
    if log != [] {
      PutsDecide(log[..|log| - 1], k);
      if log[|log| - 1].PutSetting? {
        Snoc(Puts(log[..|log| - 1]), log[|log| - 1]);
      } else {
        assert Puts(log) == Puts(log[..|log| - 1]);
      }
    }
  }

  lemma MarkReaches(t: Tables, log: seq<Op>, n: nat)
    requires n < |MarksOf(log)|
    ensures UpdatedArticles(ReplayedTo(t, log, Progress(n, {}, {})).articles, Sql.UnreadInFeed(MarksOf(log)[n]), SET_READ)
         == ReplayedTo(t, log, Progress(n + 1, {}, {})).articles
  {
    var marks := MarksOf(log);
    assert marks[..n + 1] == marks[..n] + [marks[n]];
  }

  lemma OverridesReach(t: Tables, log: seq<Op>, states: map<string, Override>, n: nat, ids: set<string>)
    requires n <= |MarksOf(log)|
    requires forall a :: OverrideOf(states, a) == Explicit(log, a)
    ensures Overridden(ReplayedTo(t, log, Progress(n, {}, {})).articles, states, ids)
         == ReplayedTo(t, log, Progress(n, ids, {})).articles
  {
    var before := ReplayedTo(t, log, Progress(n, {}, {})).articles;
    forall a | a in t.articles
      ensures Overridden(before, states, ids)[a] == ReplayedTo(t, log, Progress(n, ids, {})).articles[a]
    {
      assert OverrideOf(states, a) == Explicit(log, a);
    }
  }

  lemma SettingsReach(t: Tables, log: seq<Op>, values: map<string, string>, at: Progress, keys: set<string>)
    requires at.marks <= |MarksOf(log)| && keys <= values.Keys
    requires forall k :: LastPut(log, k) == if k in values then Some(values[k]) else None
    ensures WithSettings(t.settings, values, keys) == ReplayedTo(t, log, at.(keys := keys)).settings
  {
    forall k | k in t.settings
      ensures WithSettings(t.settings, values, keys)[k] == ReplayedTo(t, log, at.(keys := keys)).settings[k]
    {
      assert LastPut(log, k) == if k in values then Some(values[k]) else None;
    }
  }

  function Evicted(cached: map<string, Row>): map<string, Row> {
    map a | a in cached && !cached[a].read :: cached[a]
  }

  // ── The cache file ───────────────────────────────────────────────────────

  class OfflineCache {
    var pending: seq<Pending>
    var nextId: nat
    var cached: map<string, Row>
    var cachedSettings: map<string, string>
    var settingsCache: map<string, string>
    var isOffline: bool

    constructor ()
      ensures Valid() && pending == [] && cached == map[] && settingsCache == map[] && !isOffline
    {
      pending, nextId := [], 1;
      cached, cachedSettings, settingsCache := map[], map[], map[];
      isOffline := false;
    }

    ghost predicate Valid()
      reads this
    {
      RowsOrdered(pending, nextId) && OnePutPerKey(pending)
    }

    method AddPendingChange(op: Op)
      requires Valid() && !op.PutSetting?
      modifies `pending, `nextId
      ensures Valid() && nextId == old(nextId) + 1
      ensures pending == Logged(old(pending), Pending(old(nextId), op))
    {
      LoggedKeeps(pending, Pending(nextId, op), nextId);
      pending := pending + [Pending(nextId, op)];
      nextId := nextId + 1;
    }

    method AddPendingSettingChange(key: string, value: string)
      requires Valid()
      modifies `pending, `nextId
      ensures Valid() && nextId == old(nextId) + 1
      ensures pending == Logged(old(pending), Pending(old(nextId), PutSetting(key, value)))
    {
      LoggedKeeps(pending, Pending(nextId, PutSetting(key, value)), nextId);
      pending := WithoutPut(pending, key);
      pending := pending + [Pending(nextId, PutSetting(key, value))];
      nextId := nextId + 1;
    }

    method UpdateCachedArticle(article: string, isRead: Option<bool>, isStarred: Option<bool>)
      modifies `cached
      ensures cached.Keys == old(cached).Keys
      ensures forall a | a in cached ::
        cached[a] == if a == article then Merged(old(cached)[a], Override(isRead, isStarred)) else old(cached)[a]
    {
      if article in cached {
        var r := cached[article];
        match isRead {
          case Some(v) => r := r.(read := v);
          case None =>
        }
        match isStarred {
          case Some(v) => r := r.(star := v);
          case None =>
        }
        cached := cached[article := r];
      }
    }

    method MarkAllReadCached(feed: string)
      modifies `cached
      ensures cached == Apply(Tables(old(cached), map[]), MarkAllRead(feed)).articles
    {
      cached := map a | a in cached :: if cached[a].feed == feed then cached[a].(read := true) else cached[a];
    }

    method UpdateCachedSetting(key: string, value: string)
      modifies `cachedSettings, `settingsCache
      ensures cachedSettings == old(cachedSettings)[key := value]
      ensures settingsCache == old(settingsCache)[key := value]
    {
      cachedSettings := cachedSettings[key := value];
      settingsCache := settingsCache[key := value];
    }

    /** Upserts the given articles. */
    method SnapshotArticles(articles: map<string, Row>)
      modifies `cached
      ensures cached == old(cached) + articles
    {
      cached := cached + articles;
    }

    /** Replaces both copies of the settings. */
    method SnapshotSettings(settings: map<string, string>)
      modifies `cachedSettings, `settingsCache
      ensures cachedSettings == settings && settingsCache == settings
    {
      cachedSettings := settings;
      settingsCache := settings;
    }

    /** Carries the pending log into Lance: marks first, then one final state per article, then
        the settings; the log is cleared when all of it is done.  `clears` and `evicts` say
        whether the two local deletions succeed.  On failure `at` says where it stopped. */
    method Replay(writer: Writer, clears: bool, evicts: bool) returns (count: nat, ok: bool, ghost at: Progress)
      requires Valid() && writer.Valid()
      modifies `pending, `cached, writer.lance, writer.client`alive, writer`calls
      ensures Valid()
      ensures at.marks <= |MarksOf(Ops(old(pending)))|
      ensures writer.lance.Contents() ==
        if ok then Replayed(old(writer.lance.Contents()), Ops(old(pending)))
        else ReplayedTo(old(writer.lance.Contents()), Ops(old(pending)), at)
      ensures pending == if ok then [] else old(pending)
      ensures cached == if ok && old(pending) != [] && evicts then Evicted(old(cached)) else old(cached)
      ensures ok && old(pending) != [] && evicts ==> forall a :: a in cached <==> a in old(cached) && !old(cached)[a].read
      ensures forall a | a in cached :: a in old(cached) && cached[a] == old(cached)[a]
      ensures count == if ok then |old(pending)| else 0
      ensures !ok ==> old(pending) != [] && (!clears || writer.lance.FailedSince(old(writer.lance.step)) || writer.UnansweredSince(old(writer.calls)))
      ensures !ok && at.articles != {} ==> at.marks == |MarksOf(Ops(old(pending)))|
      ensures !ok && at.keys != {} ==> forall a | Explicit(Ops(old(pending)), a) != NO_OVERRIDE :: a in at.articles
    {
      var changes := pending;
      ghost var log := Ops(changes);
      ghost var t := writer.lance.Contents();
      at := Progress(0, {}, {});
      if |changes| == 0 {
        assert Replayed(t, log).articles == t.articles && Replayed(t, log).settings == t.settings;
        return 0, true, at;
      }

      var states, marks, settings := Collapse(changes);
      ok, at := Carry(writer, states, marks, settings, log);
      if !ok || !clears {
        return 0, false, at;
      }
      pending := [];
      if evicts {
        cached := Evicted(cached);
      }
      return |changes|, true, at;
    }
  }

  /** Sends a collapsed log to Lance: marks, then overrides, then settings. */
  method Carry(writer: Writer, states: map<string, Override>, marks: seq<string>, settings: seq<Op>, ghost log: seq<Op>)
    returns (ok: bool, ghost at: Progress)
    requires writer.Valid() && forall a :: OverrideOf(states, a) == Explicit(log, a)
    requires marks == MarksOf(log)
    requires settings == Puts(log)
    modifies writer.lance, writer.client`alive, writer`calls
    ensures writer.lance.step >= old(writer.lance.step) && writer.calls >= old(writer.calls)
    ensures ok || writer.lance.FailedSince(old(writer.lance.step)) || writer.UnansweredSince(old(writer.calls))
    ensures at.marks <= |marks|
    ensures at.articles != {} ==> at.marks == |marks|
    ensures at.keys != {} ==> forall a | Explicit(log, a) != NO_OVERRIDE :: a in at.articles
    ensures writer.lance.Contents() == ReplayedTo(old(writer.lance.Contents()), log, at)
    ensures ok ==> writer.lance.Contents() == Replayed(old(writer.lance.Contents()), log)
    ensures ok ==> at.marks == |marks| && forall a | Explicit(log, a) != NO_OVERRIDE :: a in at.articles
  {
    ghost var t := writer.lance.Contents();
    ok, at := ReplayMarks(writer, marks, log);
    if ok {
      ok, at := ReplayOverrides(writer, states, log, t);
    }
    if ok {
      StatesExplicit(log, states, at.articles);
      ok, at := ReplaySettings(writer, settings, log, t, at);
    }
  }

  method ReplayOverrides(writer: Writer, states: map<string, Override>, ghost log: seq<Op>, ghost t: Tables)
    returns (ok: bool, ghost at: Progress)
    requires writer.Valid() && forall a :: OverrideOf(states, a) == Explicit(log, a)
    requires writer.lance.Contents() == ReplayedTo(t, log, Progress(|MarksOf(log)|, {}, {}))
    modifies writer.lance, writer.client`alive, writer`calls
    ensures writer.lance.step >= old(writer.lance.step) && writer.calls >= old(writer.calls)
    ensures ok || writer.lance.FailedSince(old(writer.lance.step)) || writer.UnansweredSince(old(writer.calls))
    ensures at.marks == |MarksOf(log)| && at.keys == {}
    ensures ok ==> at.articles == states.Keys
    ensures at.articles <= states.Keys
    ensures forall a, b | a in states && b in states && states[a] == states[b] :: a in at.articles <==> b in at.articles
    ensures writer.lance.Contents() == ReplayedTo(t, log, at)
  {
    at := Progress(|MarksOf(log)|, {}, {});
    if |states| == 0 {
      return true, at;
    }
    ghost var reached;
    ok, reached := writer.FlushOverrides(states);
    OverridesReach(t, log, states, at.marks, reached);
    at := at.(articles := reached);
  }

  method ReplaySettings(writer: Writer, settings: seq<Op>, ghost log: seq<Op>, ghost t: Tables, ghost from: Progress)
    returns (ok: bool, ghost at: Progress)
    requires writer.Valid() && settings == Puts(log)
    requires from.marks == |MarksOf(log)| && from.keys == {}
    requires forall a | Explicit(log, a) != NO_OVERRIDE :: a in from.articles
    requires writer.lance.Contents() == ReplayedTo(t, log, from)
    modifies writer.lance, writer.client`alive, writer`calls
    ensures writer.lance.step >= old(writer.lance.step) && writer.calls >= old(writer.calls)
    ensures ok || writer.lance.FailedSince(old(writer.lance.step)) || writer.UnansweredSince(old(writer.calls))
    ensures at == from.(keys := at.keys)
    ensures writer.lance.Contents() == ReplayedTo(t, log, at)
    ensures ok ==> ReplayedTo(t, log, at) == Replayed(t, log)
  {
    at := from;
    var values := SettingsMap(settings);
    LastPuts(log, settings, values);
    ok := true;
    if |settings| > 0 {
      ghost var written;
      assert ReplayedTo(t, log, from).settings == t.settings;
      ok, written := writer.PutSettingsBatch(values);
      SettingsReach(t, log, values, at, written);
      at := at.(keys := written);
    }
    if ok {
      AllReached(t, log, at, values);
    }
  }

  /** The collapse of a log: the final explicit state of each article, the marked feeds in
      order, and the setting rows in order. */
  method Collapse(changes: seq<Pending>)
    returns (states: map<string, Override>, marks: seq<string>, settings: seq<Op>)
    ensures forall a :: OverrideOf(states, a) == Explicit(Ops(changes), a)
    ensures marks == MarksOf(Ops(changes))
    ensures settings == Puts(Ops(changes))
  {
    states, marks, settings := map[], [], [];
    ghost var log := Ops(changes);
    for i := 0 to |changes|
      invariant forall a :: OverrideOf(states, a) == Explicit(log[..i], a)
      invariant marks == MarksOf(log[..i])
      invariant settings == Puts(log[..i])
    {
      NotedExplicit(states, log[..i], log[i]);
      Snoc(log[..i], log[i]);
      assert log[..i + 1] == log[..i] + [log[i]];
      var op := changes[i].op;
      if op.MarkAllRead? {
        marks := marks + [op.feed];
      } else if op.PutSetting? {
        settings := settings + [op];
      } else {
        states := Noted(states, op);
      }
    }
    assert log[..|changes|] == log;
  }

  /** The collapsed article states after one more row; other rows leave them alone. */
  function Noted(states: map<string, Override>, op: Op): map<string, Override> {
    match op
    case SetRead(a, v) => states[a := OverrideOf(states, a).(read := Some(v))]
    case SetStar(a, v) => states[a := OverrideOf(states, a).(star := Some(v))]
    case _ => states
  }

  lemma NotedExplicit(states: map<string, Override>, log: seq<Op>, op: Op)
    requires forall a :: OverrideOf(states, a) == Explicit(log, a)
    ensures forall a :: OverrideOf(Noted(states, op), a) == Explicit(log + [op], a)
  {
    Snoc(log, op);
    forall a ensures OverrideOf(Noted(states, op), a) == Explicit(log + [op], a) {
      assert OverrideOf(states, a) == Explicit(log, a);
    }
  }

  /** Sends the marks one by one; `at` is how many were applied, which may include the one that failed. */
  method ReplayMarks(writer: Writer, marks: seq<string>, ghost log: seq<Op>) returns (ok: bool, ghost at: Progress)
    requires writer.Valid() && marks == MarksOf(log)
    modifies writer.lance, writer.client`alive, writer`calls
    ensures writer.lance.step >= old(writer.lance.step) && writer.calls >= old(writer.calls)
    ensures ok || writer.lance.FailedSince(old(writer.lance.step)) || writer.UnansweredSince(old(writer.calls))
    ensures at.articles == {} && at.keys == {} && at.marks <= |marks|
    ensures ok ==> at.marks == |marks|
    ensures writer.lance.Contents() == ReplayedTo(old(writer.lance.Contents()), log, at)
  {
    ghost var t := writer.lance.Contents();
    at := Progress(0, {}, {});
    assert ReplayedTo(t, log, at).articles == t.articles;
    assert ReplayedTo(t, log, at).settings == t.settings;
    for i := 0 to |marks|
      invariant at == Progress(i, {}, {})
      invariant writer.lance.step >= old(writer.lance.step) && writer.calls >= old(writer.calls)
      invariant writer.lance.Contents() == ReplayedTo(t, log, at)
    {
      var marked;
      ghost var applied;
      marked, applied := writer.MarkAllRead(marks[i]);
      MarkReaches(t, log, i);
      at := Progress(if applied then i + 1 else i, {}, {});
      assert ReplayedTo(t, log, at).settings == t.settings;
      if !marked {
        return false, at;
      }
    }
    return true, at;
  }

  /** The value each key is finally set to; later rows win. */
  method SettingsMap(settings: seq<Op>) returns (values: map<string, string>)
    requires forall op | op in settings :: op.PutSetting?
    ensures forall k :: LastPut(settings, k) == if k in values then Some(values[k]) else None
    ensures settings == [] ==> values == map[]
  {
    values := map[];
    for i := 0 to |settings|
      invariant forall k :: LastPut(settings[..i], k) == if k in values then Some(values[k]) else None
    {
      Snoc(settings[..i], settings[i]);
      assert settings[..i + 1] == settings[..i] + [settings[i]];
      values := values[settings[i].key := settings[i].value];
    }
    assert settings[..|settings|] == settings;
  }

  lemma LastPuts(log: seq<Op>, settings: seq<Op>, values: map<string, string>)
    requires settings == Puts(log)
    requires forall k :: LastPut(settings, k) == if k in values then Some(values[k]) else None
    ensures forall k :: LastPut(log, k) == if k in values then Some(values[k]) else None
  {
    forall k {
      PutsDecide(log, k);
    }
  }

  lemma StatesExplicit(log: seq<Op>, states: map<string, Override>, ids: set<string>)
    requires forall a :: OverrideOf(states, a) == Explicit(log, a)
    requires ids == states.Keys
    ensures forall a | Explicit(log, a) != NO_OVERRIDE :: a in ids
  {
    forall a | Explicit(log, a) != NO_OVERRIDE ensures a in ids {
      assert OverrideOf(states, a) == Explicit(log, a);
    }
  }

  lemma AllReached(t: Tables, log: seq<Op>, at: Progress, values: map<string, string>)
    requires forall a | Explicit(log, a) != NO_OVERRIDE :: a in at.articles
    requires forall k :: LastPut(log, k) == if k in values then Some(values[k]) else None
    requires at.marks == |MarksOf(log)| && at.keys == values.Keys
    ensures ReplayedTo(t, log, at) == Replayed(t, log)
  {
    forall a | a in t.articles && a !in at.articles
      ensures LastRead(log, a) == None && LastStar(log, a) == None
    {
      assert Explicit(log, a) == NO_OVERRIDE;
    }
    forall k | k in t.settings && k !in at.keys
      ensures LastPut(log, k) == None
    {
    }
    CompleteReplay(t, log, at);
  }
}
